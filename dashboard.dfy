/** The values the dashboard derives from the hook's state: the latest point
    it displays, and whether the sensor counts as connected, connecting or
    showing high stress. */
module Dashboard {
  import opened Types
  import opened Window
  import opened Session
  import opened Coach

  /** The effect that follows the window: a non-empty window puts its last
      point on display; an empty one leaves the displayed point as it was. */
  function NextCurrent(data: seq<BiometricDataPoint>, current: Option<BiometricDataPoint>): (r: Option<BiometricDataPoint>)
    ensures data != [] ==> r == Some(data[|data| - 1])
    ensures data == [] ==> r == current
    ensures r.None? ==> data == [] && current.None?
  {
    if |data| > 0 then Some(data[|data| - 1]) else current
  }

  predicate IsConnected(status: ConnectionStatus)
    ensures IsConnected(status) <==> status in {Connected, Simulation}
    ensures status == Error || status == Disconnected || status == Connecting ==> !IsConnected(status)
  {
    status == Connected || status == Simulation
  }

  predicate IsConnecting(status: ConnectionStatus)
    ensures IsConnecting(status) <==> status == Connecting
    ensures IsConnecting(status) ==> !IsConnected(status)
  {
    status == Connecting
  }

  /** A missing point counts as stress 0. */
  predicate IsHighStress(current: Option<BiometricDataPoint>)
    ensures current.None? ==> !IsHighStress(current)
    ensures IsHighStress(current) <==> current.Some? && current.value.stressScore > StressHigh
  {
    (if current.Some? then current.value.stressScore else 0.0) > StressHigh
  }

  /** No status is both connected and connecting; Error and Disconnected are
      neither; among the statuses the hook assigns, connected means Simulation. */
  lemma StatusClassification(status: ConnectionStatus)
    ensures !(IsConnected(status) && IsConnecting(status))
    ensures status == Error || status == Disconnected ==> !IsConnected(status) && !IsConnecting(status)
    ensures HookStatus(status) ==> (IsConnected(status) <==> status == Simulation)
  {
  }

  /** After a point is appended, it is the one on display. */
  lemma CurrentIsNewestPoint(window: seq<BiometricDataPoint>, point: BiometricDataPoint, current: Option<BiometricDataPoint>)
    ensures NextCurrent(AddDataPoint(window, point), current) == Some(point)
    ensures IsHighStress(NextCurrent(AddDataPoint(window, point), current)) <==> point.stressScore > StressHigh
  {
  }

  /** Emptying the window (disconnect) keeps the displayed point, and with it
      the high-stress flag; no point on display is never high stress. */
  lemma CurrentSurvivesDisconnect(current: Option<BiometricDataPoint>)
    ensures NextCurrent([], current) == current
    ensures IsHighStress(NextCurrent([], current)) == IsHighStress(current)
    ensures !IsHighStress(None)
  {
  }

  /** After disconnect a stale high-stress flag may fire the automatic path,
      but the request does not start on the empty window. */
  method StaleTriggerAfterDisconnect(b: Biometrics, c: AdviceCoach, current: Option<BiometricDataPoint>, now: int)
    requires b.Valid()
    modifies b, c
    ensures b.data == [] && NextCurrent(b.data, current) == current
    ensures c.loading == old(c.loading) && c.error == old(c.error)
    ensures c.advice == old(c.advice) && c.lastAnalysisTime == old(c.lastAnalysisTime)
  {
    b.Disconnect();
    var shown := NextCurrent(b.data, current);
    if c.ShouldAutoTrigger(IsHighStress(shown), now) {
      var started := c.StartRequest(b.data);
      assert !started;
    }
  }
}
