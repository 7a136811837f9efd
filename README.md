# TruthScan backend, modelled in Dafny

TruthScan is a demonstration web service that pretends to detect deepfakes
and AI-generated content. Its backend (`backend.py`) has no real analysis. It
looks up a fixed detection-model descriptor for the declared content type
(text, image, audio or video). It perturbs that model's base confidence by a
uniform random variance and clamps the result to [0.1, 0.99]. It labels the
result HIGH, MEDIUM or LOW and attaches a canned recommendation list. Three
telemetry endpoints serve randomised snapshots built around a static threat
table.

This project models that logic as pure Dafny functions over datatypes:

- `wrappers.dfy` — `Wrappers`: the `Option` type.
- `pynum.dfy` — `PyNum`: Python's `round(x, n)` (half to even, over exact reals), `str(n)` for naturals, and the `.1f` format.
- `pyrandom.dfy` — `PyRandom`: `uniform`, `randint` and `choice`, built from the generator's raw outputs as CPython builds them.
- `clock.dfy` — `Clock`: naive date-times as microseconds since 0001-01-01, with `timedelta` offsets and `strftime("%A")`.
- `json.dfy` — `JsonValue`: request bodies as Python JSON values, with Python truthiness and hashability.
- `tables.dfy` — `Tables`: `THREAT_DATA` and `DETECTION_MODELS`.
- `analysis.dfy` — `Analysis`: `generate_realistic_analysis` and `generate_recommendations`.
- `routes.dfy` — `Routes`: validation in `analyze_content`, and `get_threat_data`.
- `telemetry.dfy` — `Telemetry`: `get_dashboard_data`, `get_intelligence_data` and `get_reports_data`.

Randomness, the clock and SHA-256 are parameters. A unit draw is a value of
`random()` in [0, 1). A "below" draw is a value of `_randbelow(n)` in [0, n).
Each `requires` states the range the generator guarantees. A list
comprehension takes its draws as a stream `nat -> Draw`.

The main results:

- The clamped confidence always lies in [0.1, 0.99].
- Its displayed percentage always lies in [10.0, 99.0].
- The threat level is exactly one of the three buckets.
- The recommendations depend only on the threat-level bucket and determine it.
- Every base confidence is at least 0.89 and the variance is at least -0.1. So every analysis the service can produce is LOW with the "appears to be authentic" advice. The HIGH and MEDIUM branches of both `generate_realistic_analysis` and `generate_recommendations` are unreachable from the route.
- Validation checks for missing or falsy fields before it checks the type.
- A request is accepted exactly when it has a supported string `type` and truthy `content`, given that the content's text can be encoded (see Routes.AcceptedExactly under "## Left out").
- A 500 comes exactly from a failed `get_json`, a body that is not an object, or a non-empty list or dict as `type` with truthy `content`, given that the content's text can be encoded (see Routes.ServerErrorExactly under "## Left out").
- Snapshot lists have lengths 10, 24 and 7. Every drawn field is in its stated range.
- For one clock reading, the timeline steps back exactly one hour per entry (see Telemetry.IntelligenceData under "## Left out").
- Row i of the weekly trends names the day i days before the clock reading, so for one reading the seven rows name seven different days (see Telemetry.ReportsData under "## Left out").

Some of the code's behaviour is easy to misread. The model follows the code:

- `generate_recommendations` ignores the content type. Its thresholds are the threat-level thresholds, not separate ones.
- A non-empty list or dict given as `type`, with truthy `content`, cannot be looked up in a dict. It raises inside the handler, so the answer is 500, not 400.
- A body that is not a JSON object also ends in the 500 handler.
- An unknown type passed straight to `generate_realistic_analysis` raises `KeyError`. The function has no dedicated error.
- The threat level is computed from the unrounded confidence. The percentage is the rounded one. For example, a confidence of 0.2996 is shown as 30.0 but is labelled HIGH. This cannot happen through the route, because the confidence never falls below 0.79 there.

## Model

| member | source | states |
|---|---|---|
| PyNum.RoundHalfEven | backend.py:106 | the result is an integer within 1/2 of the input, and an exact tie goes to the even integer |
| PyNum.RoundHalfEvenMonotone | backend.py:106 | rounding preserves order |
| PyNum.RoundHalfEvenWithin | backend.py:106 | an input between two integers rounds to a value between them |
| PyNum.Round | backend.py:106-107 | `round(x, n)` times 10^n is the half-to-even rounding of x times 10^n, so it is the nearest multiple of 10^-n, ties to even; it lies within half a unit of the n-th decimal place of x |
| PyNum.RoundWithin | backend.py:106-107 | a value between two whole multiples of 10^-n rounds to a value between those multiples |
| PyNum.ToDecimal | backend.py:200 | `str(n)` is a non-empty string of decimal digits with no leading zero |
| PyNum.ParseToDecimal | backend.py:200 | reading `str(n)` back as a decimal gives n |
| PyNum.DecimalLength | backend.py:200 | a number with k digits is written with exactly k characters |
| PyNum.FormatFixed1 | backend.py:272 | `.1f` output is digits, a point, then one digit |
| PyNum.FormatFixed1Value | backend.py:272 | the digits of the `.1f` output, read back, give the value in tenths rounded half to even |
| PyRandom.Uniform | backend.py:64 | `uniform(a, b)` lies in [a, b], and below b when a < b |
| PyRandom.UniformCovers | backend.py:64 | every value in [a, b) is reached by some draw |
| PyRandom.RandInt | backend.py:192 | `randint(a, b)` lies in [a, b] |
| PyRandom.RandIntCovers | backend.py:192 | each value in [a, b] comes from exactly one draw |
| PyRandom.Choice | backend.py:201 | `choice(xs)` is an element of xs |
| Clock.Weekday | backend.py:265 | the day of the week is a number from 0 to 6 |
| Clock.DayName | backend.py:265 | `strftime("%A")` is one of the seven English day names |
| Clock.WeekdayAnchors | backend.py:265 | 0001-01-01 is a Monday (weekday 0) and 2002-12-04 a Wednesday (weekday 2), as in Python's calendar |
| Clock.ReadingsAcrossMidnight | backend.py:265 | a reading just before midnight and one just after, stepped back one day, both name Monday |
| Clock.WeekdayDayBefore | backend.py:265 | going back one day moves to the previous day of the week |
| Clock.DaysBackDistinct | backend.py:263-268 | two different offsets of fewer than seven days back give different day names |
| JsonValue.FalsyValues | backend.py:171 | exactly None, False, 0, "", [] and {} are falsy |
| Tables.Lookup | backend.py:217 | for a name that is present, as a dict subscript needs, the result is the count of its first entry |
| Tables.BreakdownsAddUp | backend.py:15-33 | the regional counts sum to the active threats, and the per-type counts sum to the deepfakes found |
| Tables.DetectionModelsShape | backend.py:35-56 | exactly the four types text, image, audio and video are supported; each has four features and a base confidence in [0.89, 0.94] |
| Analysis.Clamp | backend.py:65 | the result lies in [0.1, 0.99]; an in-range input is unchanged; out-of-range inputs go to the nearer bound |
| Analysis.ClampMonotone | backend.py:65 | clamping preserves order |
| Analysis.ClampIdempotent | backend.py:65 | clamping twice is clamping once |
| Analysis.Classify | backend.py:115 | HIGH exactly below 0.3, MEDIUM exactly in [0.3, 0.7), LOW exactly from 0.7 up |
| Analysis.Label | backend.py:115 | the label is "HIGH", "MEDIUM" or "LOW" |
| Analysis.LabelsDistinct | backend.py:115 | two labels are equal exactly when their levels are equal |
| Analysis.Recommendations | backend.py:119-141 | always four strings, always one of the three fixed lists |
| Analysis.RecommendationsFollowThreatLevel | backend.py:115-141 | the recommendations are the list that goes with the confidence's threat level, whatever the content type |
| Analysis.RecommendationsDetermineThreatLevel | backend.py:119-141 | two confidences get equal recommendations exactly when they get the same threat level |
| Analysis.FindingsShape | backend.py:68-97 | each supported type has five canned findings, and no other type has any |
| Analysis.Fingerprint | backend.py:112 | "SHA256: ", then the first 16 digest characters, then "..." (27 characters) |
| Analysis.VerificationTag | backend.py:113 | "0x", then the first 16 digest characters, then "..." (21 characters) |
| Analysis.Variance | backend.py:64 | the variance lies in [-0.1, 0.1) |
| Analysis.Confidence | backend.py:60-65 | the clamped confidence lies in [0.1, 0.99] |
| Analysis.PercentInRange | backend.py:106-107 | `round(confidence * 100, 1)` of a clamped confidence lies in [10.0, 99.0] |
| Analysis.GenerateAnalysis | backend.py:58-117 | percentage in [10.0, 99.0], and equal to `round(c * 100, 1)` for the clamped confidence c of base plus variance; threat level is the label of c's bucket; authenticity score equals confidence; findings, model name, base confidence and features are the type's table entries; digest strings are the prefix, the digest's first 16 characters and `"..."`; HIGH, MEDIUM and LOW each pair with their own recommendation list |
| Analysis.LowForEveryVariance | backend.py:63-65 | with any supported type and any variance in [-0.1, 0.1], the confidence is at least 0.79 and the level is LOW |
| Analysis.AnalysisAlwaysLow | backend.py:58-117 | every generated analysis is labelled LOW, carries the "appears to be authentic" advice and shows a percentage in [79.0, 99.0] |
| Routes.StatusCode | backend.py:172-181 | the analysis is sent with 200, a validation error with 400 and a caught exception with 500 |
| Routes.AnalyzeContent | backend.py:164-181 | a 400 carries one of the two validation messages |
| Routes.ServerErrorExactly | backend.py:166-181 | 500 exactly when `get_json` raised, the body is not an object, or `content` is truthy and `type` is a non-empty list or dict |
| Routes.BadRequestExactly | backend.py:171-175 | 400 exactly when the body is an object and a field is missing or falsy, or `type` is a hashable value that is not a supported name |
| Routes.MissingCheckedFirst | backend.py:171-172 | a missing or falsy type or content gives "Missing content type or data", whatever the type |
| Routes.UnsupportedTypeRejected | backend.py:174-175 | when both fields are present, a hashable type that is not a supported name gives "Unsupported content type" |
| Routes.AcceptedExactly | backend.py:166-178 | success exactly when the body is an object with a supported string type and truthy content; the response is then the generator's analysis |
| Routes.AcceptedAlwaysLow | backend.py:163-178 | every successful response is LOW with the "appears to be authentic" advice |
| Routes.TextRequestExample | backend.py:163-178 | a text request gets 200, with "Linguistic Pattern Analyzer v3.2", base 0.94, a percentage in [10, 99] and the text findings |
| Routes.ListTypeExample | backend.py:174-181 | a list as type ends in the 500 handler |
| Routes.GetThreatData | backend.py:183-186 | the served table has the declared headline figures and breakdowns, and its breakdowns add up to its headline counts |
| Telemetry.DetectionId | backend.py:200 | "TS-" followed by four digits that read back as the drawn number |
| Telemetry.RoundedUniform2 | backend.py:202 | `round(uniform(0.7, 0.99), 2)` lies in [0.7, 0.99] |
| Telemetry.RecentDetection | backend.py:199-205 | id "TS-" plus a number in [1000, 9999]; a listed kind and status; confidence in [0.7, 0.99]; a time one to sixty minutes before now |
| Telemetry.DashboardData | backend.py:188-208 | total scans in [45000, 50000]; the table's active threats and accuracy; four active models; exactly 10 recent detections, each well formed |
| Telemetry.TimelineAt | backend.py:238-242 | threats in [5, 25]; a listed kind; exactly the given number of hours before now |
| Telemetry.IntelligenceData | backend.py:210-250 | three clusters, named as the table's first three regions and carrying their counts, with fixed risk levels and coordinates; exactly 24 timeline entries, starting now and stepping back one hour each, with threats in [5, 25]; source figures in their ranges |
| Telemetry.TimelineStrictlyEarlier | backend.py:237-243 | for the snapshot's single clock reading, entry j is exactly j - i hours earlier than entry i |
| Telemetry.ClusterCounts | backend.py:214-236 | the cluster counts are 1247, 892 and 456 |
| Telemetry.TrendAt | backend.py:264-268 | the row names the day that many days back, with scans in [800, 1200] and threats in [30, 80] |
| Telemetry.AverageProcessingTime | backend.py:272 | digit, point, digit, "s", worth between 0.5 and 2.0 seconds |
| Telemetry.DataProcessed | backend.py:275 | three digits worth 100 to 500, then "GB" |
| Telemetry.ReportsData | backend.py:252-278 | daily figures in their ranges, with accuracy in [0.95, 0.99]; exactly 7 weekly rows, row i naming the day i days before the reading, so seven different days, with values in range; the table's threat types; the fixed uptime; an average processing time printed as digit, point, digit, "s" and worth 0.5 to 2.0 seconds; API calls in [5000, 10000]; data processed as three digits worth 100 to 500, then "GB" |
| Telemetry.WeekOfDistinctDays | backend.py:263-269 | the seven days going back from any instant have seven different names |

## Left out

- Flask routing, the page routes at backend.py:143-161 and `render_template` are not modelled. They do no logic.
- `jsonify` serialisation is not modelled, including key sorting and number formatting. Results are Dafny datatypes.
- CORS setup and `app.run` are not modelled. They are process configuration.
- start.py is not modelled: dependency installation, the browser launch, threads, sleeping and the server start. It is process plumbing.
- The PIL, base64 and io imports are not modelled. They are unused.
- SHA-256 and `str(content_data)` are not modelled. The two hex digests are parameters, required to be 64 lower-case hex characters. So the model does not tie the fingerprint to the content.
- `isoformat()` and `strftime("%Y-%m-%d")` strings are not modelled. Timestamp and date fields hold the instant itself. Only `strftime("%A")` is modelled, in the C locale.
- The source reads the clock separately for each timestamp field of a response. The model uses one reading `now` per snapshot. For an analysis, it uses one stamp plus the opaque verification digest.
- The random generator, and the order in which one shared generator serves the calls, are not modelled. Each call's raw draw is an independent parameter, constrained only to its range.
- Floating point is not modelled. Confidences and other fractional values are exact reals, and `round` and `.1f` round those reals half to even. So results can differ from the source at binary-representation ties.
- Analysis.GenerateAnalysis: requires a supported content type. The source would raise `KeyError` at that point, but its only caller has already rejected every other type.
- Routes.ServerErrorExactly: it misses the 500 that the source gives for a request with a supported type and a content string holding an unpaired surrogate (see the next line). The model cannot express that input.
- Routes.AcceptedExactly: a content string holding an unpaired surrogate, such as `"\ud800"`, is kept by Python's JSON parser, and `str(content_data).encode()` then raises `UnicodeEncodeError`, so the source answers 500. A Dafny `char` cannot hold a surrogate, so the model cannot express that input and does not have this failure.
- Telemetry.ReportsData: the source calls `datetime.now()` once per weekly row; the model uses one reading for all seven. When rows are read on either side of midnight, two adjacent rows in the source can name the same day (Clock.ReadingsAcrossMidnight shows such a pair), so the distinct-days property holds only for the single reading the model takes.
- Telemetry.IntelligenceData: the source calls `datetime.now()` for each timeline entry, so consecutive entries are one hour minus the time between the two readings apart. The model uses one reading, so its timeline steps back exactly one hour per entry, and Telemetry.TimelineStrictlyEarlier holds only for that single reading.
- Routes.AnalyzeContent: the text of the 500 response (Python's message for the exception) is not modelled. `None` stands for every failure of `request.get_json()`: a wrong content type or a malformed body.
- The JSON literals `NaN` and `Infinity`, which Python's parser accepts, are not modelled. Numbers are reals.
- `timedelta` arithmetic below year 1 raises `OverflowError` in the source. Instants here are unbounded integers, so that error is not modelled.
