/** The advice panel: when a request may start (automatically on sustained
    high stress, or from the "Analyze Now" button) and how the panel's state
    moves through one request. The awaited call is split into a start step
    and a settle step that receives the outcome of analyzeStress. */
module Coach {
  import opened Types
  import opened GeminiService

  /** Minimum time between two automatic requests, in milliseconds. */
  const CooldownMs: int := 60000

  /** Samples the window must hold before the button is enabled. */
  const MinManualSamples: nat := 5

  const CoachErrorMessage: string := "Unable to contact AI Coach. Check API Key."

  /** The condition of the auto-trigger effect. */
  predicate AutoTriggerFires(isHighStress: bool, now: int, lastAnalysisTime: int, loading: bool)
    ensures AutoTriggerFires(isHighStress, now, lastAnalysisTime, loading) ==> isHighStress && !loading
    ensures now - lastAnalysisTime <= CooldownMs ==> !AutoTriggerFires(isHighStress, now, lastAnalysisTime, loading)
    ensures isHighStress && !loading && now >= lastAnalysisTime + CooldownMs + 1 ==>
      AutoTriggerFires(isHighStress, now, lastAnalysisTime, loading)
  {
    isHighStress && now - lastAnalysisTime > CooldownMs && !loading
  }

  /** The "Analyze Now" button is enabled. */
  predicate ManualEnabled(loading: bool, sampleCount: nat)
    ensures loading ==> !ManualEnabled(loading, sampleCount)
    ensures sampleCount < MinManualSamples ==> !ManualEnabled(loading, sampleCount)
    ensures !loading && sampleCount >= MinManualSamples ==> ManualEnabled(loading, sampleCount)
  {
    !loading && sampleCount >= MinManualSamples
  }

  class AdviceCoach {
    var advice: Option<AIResponse>
    var loading: bool
    var error: Option<string>
    var lastAnalysisTime: int

    constructor ()
      ensures advice == None && !loading && error == None && lastAnalysisTime == 0
    {
      advice := None;
      loading := false;
      error := None;
      lastAnalysisTime := 0;
    }

    predicate ShouldAutoTrigger(isHighStress: bool, now: int)
      reads this
    {
      AutoTriggerFires(isHighStress, now, lastAnalysisTime, loading)
    }

    predicate AnalyzeNowEnabled(recentData: seq<BiometricDataPoint>)
      reads this
    {
      ManualEnabled(loading, |recentData|)
    }

    /** The synchronous part of getAdvice: an empty window returns at once;
        otherwise the request is in flight and the old error is cleared. */
    method StartRequest(recentData: seq<BiometricDataPoint>) returns (started: bool)
      modifies this
      ensures started <==> recentData != []
      ensures !started ==> unchanged(this)
      ensures started ==> loading && error == None
      ensures started ==> !AnalyzeNowEnabled(recentData) && !ShouldAutoTrigger(true, lastAnalysisTime + CooldownMs + 1)
      ensures advice == old(advice) && lastAnalysisTime == old(lastAnalysisTime)
    {
      if |recentData| == 0 {
        return false;
      }
      loading := true;
      error := None;
      started := true;
    }

    /** The settlement of the awaited analyzeStress call: success stores the
        advice and restarts the cooldown; failure stores the fixed message and
        leaves advice and cooldown alone; either way loading ends. */
    method Settle(outcome: Result<AIResponse, AnalysisError>, now: int)
      modifies this
      ensures !loading
      ensures outcome.Success? ==>
        advice == Some(outcome.value) && lastAnalysisTime == now && error == old(error)
      ensures outcome.Failure? ==>
        error == Some(CoachErrorMessage) && advice == old(advice) && lastAnalysisTime == old(lastAnalysisTime)
    {
      match outcome {
        case Success(result) =>
          advice := Some(result);
          lastAnalysisTime := now;
        case Failure(_) =>
          error := Some(CoachErrorMessage);
      }
      loading := false;
    }
  }

  /** While a request is in flight neither path can start another. */
  lemma AtMostOneInFlight(isHighStress: bool, now: int, lastAnalysisTime: int, sampleCount: nat)
    ensures !AutoTriggerFires(isHighStress, now, lastAnalysisTime, true)
    ensures !ManualEnabled(true, sampleCount)
  {
  }

  /** Thirty seconds after the last analysis the automatic path stays quiet;
      sixty-one seconds after, it fires. */
  lemma CooldownExamples(now: int)
    ensures !AutoTriggerFires(true, now, now - 30000, false)
    ensures AutoTriggerFires(true, now, now - 61000, false)
  {
  }

  /** With the initial lastAnalysisTime of 0, the cooldown does not block the
      first high-stress reading once the clock is past 60000. */
  lemma FirstReadingNotBlocked(isHighStress: bool, now: int, loading: bool)
    requires now > CooldownMs
    ensures AutoTriggerFires(isHighStress, now, 0, loading) <==> isHighStress && !loading
  {
  }

  /** The button ignores stress and cooldown; the automatic path has no
      five-sample gate. */
  lemma ManualIgnoresCooldown(loading: bool, sampleCount: nat, isHighStress: bool, now: int, lastAnalysisTime: int)
    ensures ManualEnabled(loading, sampleCount) <==> !loading && sampleCount >= 5
    ensures sampleCount < 5 && isHighStress && !loading && now - lastAnalysisTime > CooldownMs ==>
      AutoTriggerFires(isHighStress, now, lastAnalysisTime, loading) && !ManualEnabled(loading, sampleCount)
  {
  }

  /** A failed request does not restart the cooldown: if the automatic path
      fired for the request, it fires again as soon as loading ends. */
  method FailureAllowsRetry(c: AdviceCoach, recentData: seq<BiometricDataPoint>, err: AnalysisError, now: int)
    requires c.ShouldAutoTrigger(true, now) && recentData != []
    modifies c
    ensures c.ShouldAutoTrigger(true, now)
    ensures c.error == Some(CoachErrorMessage)
  {
    var started := c.StartRequest(recentData);
    c.Settle(Failure(err), now);
  }
}
