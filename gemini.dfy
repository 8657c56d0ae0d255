/** The advice request: the API-key guard, the four-field summary of the
    window that is the only data sent, and the empty-response guard. The
    remote model is a function from the summary to its reply. */
module GeminiService {
  import opened Types
  import opened JsMath

  datatype Trend = Increasing | Decreasing

  /** The values interpolated into the prompt. */
  datatype StressSummary = StressSummary(averageHR: int, averageGSR: real, currentStress: real, trend: Trend)

  /** Why analyzeStress throws. EmptyWindow is the TypeError raised when the
      last element of an empty window is read. */
  datatype AnalysisError = MissingApiKey | EmptyWindow | RequestFailed | NoResponse | MalformedResponse

  /** What the generateContent call delivers: a thrown error, or a response
      text together with the outcome of parsing it as JSON. */
  datatype Reply = TransportError | Replied(text: string, parsed: Option<AIResponse>)

  /** The left fold `reduce((acc, curr) => acc + measure(curr), 0)`. */
  function Total(data: seq<BiometricDataPoint>, measure: BiometricDataPoint -> real): (r: real)
    ensures data == [] ==> r == 0.0
    ensures (forall i :: 0 <= i < |data| ==> measure(data[i]) >= 0.0) ==> r >= 0.0
  {
    if data == [] then 0.0 else Total(data[..|data| - 1], measure) + measure(data[|data| - 1])
  }

  /** The reduce-sum divided by the window length. */
  function Mean(data: seq<BiometricDataPoint>, measure: BiometricDataPoint -> real): (r: real)
    requires |data| > 0
    ensures r * (|data| as real) == Total(data, measure)
    ensures |data| == 1 ==> r == measure(data[0])
  {
    Total(data, measure) / (|data| as real)
  }

  function HeartRateOf(p: BiometricDataPoint): real { p.heartRate }
  function GsrOf(p: BiometricDataPoint): real { p.gsr }

  /** A total of values held in [lo, hi] lies between n * lo and n * hi. */
  lemma {:induction false} TotalBetween(data: seq<BiometricDataPoint>, measure: BiometricDataPoint -> real, lo: real, hi: real)
    requires forall i :: 0 <= i < |data| ==> lo <= measure(data[i]) <= hi
    ensures (|data| as real) * lo <= Total(data, measure) <= (|data| as real) * hi
  {
    if data != [] {
      var init := data[..|data| - 1];
      assert forall i :: 0 <= i < |init| ==> init[i] == data[i];
      TotalBetween(init, measure, lo, hi);
      assert (|data| as real) * lo == (|init| as real) * lo + lo;
      assert (|data| as real) * hi == (|init| as real) * hi + hi;
    }
  }

  /** The mean of values held in [lo, hi] lies in [lo, hi]. */
  lemma MeanBetween(data: seq<BiometricDataPoint>, measure: BiometricDataPoint -> real, lo: real, hi: real)
    requires |data| > 0
    requires forall i :: 0 <= i < |data| ==> lo <= measure(data[i]) <= hi
    ensures lo <= Mean(data, measure) <= hi
  {
    TotalBetween(data, measure, lo, hi);
    var n := |data| as real;
    var m := Mean(data, measure);
    assert Total(data, measure) == m * n;
    DivideBounds(Total(data, measure), n, lo, hi);
  }

  lemma DivideBounds(t: real, n: real, lo: real, hi: real)
    requires n > 0.0 && n * lo <= t <= n * hi
    ensures lo <= t / n <= hi
  {
    // These steps spell out the nonlinear argument; they keep the proof
    // stable across solver seeds.
    var m := t / n;
    assert t == m * n;
    assert (m - lo) * n >= 0.0;
    assert (hi - m) * n >= 0.0;
  }

  /** The summary of a non-empty window. */
  function Summarize(data: seq<BiometricDataPoint>): (r: StressSummary)
    requires |data| > 0
    ensures r.averageHR as real - 0.5 <= Mean(data, HeartRateOf) < r.averageHR as real + 0.5
    ensures r.averageGSR == ToFixed2(Mean(data, GsrOf))
    ensures -0.005 <= r.averageGSR - Mean(data, GsrOf) <= 0.005
    ensures r.currentStress == data[|data| - 1].stressScore
    ensures r.trend == Increasing <==> data[0].stressScore < data[|data| - 1].stressScore
  {
    var averageHR := Round(Mean(data, HeartRateOf));
    var averageGSR := ToFixed2(Mean(data, GsrOf));
    var currentStress := data[|data| - 1].stressScore;
    var trend := if data[0].stressScore < currentStress then Increasing else Decreasing;
    StressSummary(averageHR, averageGSR, currentStress, trend)
  }

  /** analyzeStress: the key guard first, then the summary (which throws on
      an empty window), then the remote call on that summary. */
  function AnalyzeStress(apiKey: string, data: seq<BiometricDataPoint>, service: StressSummary -> Reply): (r: Result<AIResponse, AnalysisError>)
    ensures apiKey == "" ==> r == Failure(MissingApiKey)
    ensures apiKey != "" && data == [] ==> r == Failure(EmptyWindow)
    ensures r.Success? <==>
      apiKey != "" && data != []
      && var reply := service(Summarize(data));
         reply.Replied? && reply.text != "" && reply.parsed.Some?
    ensures r.Success? ==> data != [] && service(Summarize(data)).Replied? && service(Summarize(data)).parsed == Some(r.value)
  {
    if apiKey == "" then Failure(MissingApiKey)
    else if data == [] then Failure(EmptyWindow)
    else
      match service(Summarize(data))
      case TransportError => Failure(RequestFailed)
      case Replied(text, parsed) =>
        if text == "" then Failure(NoResponse)
        else if parsed.None? then Failure(MalformedResponse)
        else Success(parsed.value)
  }

  /** An empty response text is an error. */
  lemma EmptyTextIsError(apiKey: string, data: seq<BiometricDataPoint>, service: StressSummary -> Reply)
    requires apiKey != "" && data != []
    requires service(Summarize(data)).Replied? && service(Summarize(data)).text == ""
    ensures AnalyzeStress(apiKey, data, service) == Failure(NoResponse)
  {
  }

  /** Only the summary reaches the service: windows with equal summaries get
      the same outcome. */
  lemma OnlySummaryIsSent(apiKey: string, a: seq<BiometricDataPoint>, b: seq<BiometricDataPoint>, service: StressSummary -> Reply)
    requires a != [] && b != [] && Summarize(a) == Summarize(b)
    ensures AnalyzeStress(apiKey, a, service) == AnalyzeStress(apiKey, b, service)
  {
  }

  /** A window whose first and last stress are equal, a one-point window in
      particular, reports a decreasing trend. */
  lemma EqualEndsReportDecreasing(data: seq<BiometricDataPoint>)
    requires |data| > 0 && data[0].stressScore == data[|data| - 1].stressScore
    ensures Summarize(data).trend == Decreasing
  {
  }

  /** The summary of a window of sensor-range points stays in range: the
      average heart rate in [50, 140] and the average conductance in [0.5, 15]. */
  lemma {:induction false} SummaryInRange(data: seq<BiometricDataPoint>)
    requires |data| > 0
    requires forall i :: 0 <= i < |data| ==> 50.0 <= data[i].heartRate <= 140.0 && 0.5 <= data[i].gsr <= 15.0
    ensures 50 <= Summarize(data).averageHR <= 140
    ensures 0.5 <= Summarize(data).averageGSR <= 15.0
  {
    MeanBetween(data, HeartRateOf, 50.0, 140.0);
    MeanBetween(data, GsrOf, 0.5, 15.0);
    RoundWithin(Mean(data, HeartRateOf), 50, 140);
    ToFixed2Within(Mean(data, GsrOf), 50, 1500);
  }
}
