/** The biometrics hook: connection status, the rolling window, whether the
    simulation interval is held, and the closure state of the synthetic
    sensor. Timer callbacks are explicit calls: the 1500 ms handshake calls
    StartVirtualStream, and each 1 Hz interval firing calls Tick. */
module Session {
  import opened Types
  import opened JsMath
  import opened Window
  import opened Sensor

  /** The statuses the hook ever assigns. */
  predicate HookStatus(s: ConnectionStatus)
  {
    s == Disconnected || s == Connecting || s == Simulation
  }

  class Biometrics {
    var status: ConnectionStatus
    var data: seq<BiometricDataPoint>
    var intervalActive: bool  // the simulation interval handle is held
    var time: nat             // ticks since the stream started
    var hr: real
    var gsr: real
    var stress: real

    /** The hook's invariant: a known status, a window within capacity,
        walkers inside their clamp ranges, and only plausible points. */
    ghost predicate Valid()
      reads this
    {
      HookStatus(status)
      && |data| <= DataWindowSize
      && InRange(hr, gsr)
      && forall i :: 0 <= i < |data| ==> Plausible(data[i])
    }

    constructor ()
      ensures Valid()
      ensures status == Disconnected && data == [] && !intervalActive
    {
      status := Disconnected;
      data := [];
      intervalActive := false;
      time := 0;
      hr := InitialHeartRate;
      gsr := InitialGsr;
      stress := InitialStress;
    }

    /** Starts the synthetic stream unless an interval is already held; the
        walkers restart from their baseline values. */
    method StartVirtualStream()
      requires Valid()
      modifies this
      ensures Valid()
      ensures old(intervalActive) ==> unchanged(this)
      ensures !old(intervalActive) ==>
        status == Simulation && intervalActive && data == old(data)
        && time == 0 && hr == InitialHeartRate && gsr == InitialGsr && stress == InitialStress
    {
      if intervalActive {
        return;
      }
      status := Simulation;
      time := 0;
      hr := InitialHeartRate;
      gsr := InitialGsr;
      stress := InitialStress;
      intervalActive := true;
    }

    /** One firing of the 1 Hz interval. */
    method Tick(now: int, hrChange: real, gsrChange: real)
      requires Valid() && intervalActive
      requires HeartRateDelta(hrChange) && GsrDelta(gsrChange)
      modifies this
      ensures Valid()
      ensures time == old(time) + 1
      ensures hr == NextHeartRate(old(hr), hrChange)
      ensures gsr == NextGsr(old(gsr), gsrChange)
      ensures stress == SyntheticStress(hr, gsr)
      ensures data == AddDataPoint(old(data), MakePoint(now, hr, gsr))
      ensures status == old(status) && intervalActive
    {
      time := time + 1;

      hr := hr + hrChange;
      if hr > 100.0 { hr := hr - 1.0; }
      if hr < 60.0 { hr := hr + 1.0; }

      gsr := gsr + gsrChange;
      if gsr > 8.0 { gsr := gsr - 0.1; }
      if gsr < 1.0 { gsr := gsr + 0.1; }

      hr := Clamp(50.0, 140.0, hr);
      gsr := Clamp(0.5, 15.0, gsr);

      stress := SyntheticStress(hr, gsr);
      var point := MakePoint(now, hr, gsr);
      MakePointPlausible(now, hr, gsr);
      data := AddDataPoint(data, point);
    }

    /** Requests a connection: the status becomes Connecting whatever it was. */
    method ConnectVirtual()
      requires Valid()
      modifies this
      ensures Valid()
      ensures status == Connecting
      ensures data == old(data) && intervalActive == old(intervalActive)
      ensures time == old(time) && hr == old(hr) && gsr == old(gsr) && stress == old(stress)
    {
      status := Connecting;
    }

    /** Releases the interval if one is held; nothing else changes, so a
        second call is a no-op. */
    method StopSimulation()
      requires Valid()
      modifies this
      ensures Valid()
      ensures !intervalActive
      ensures old(!intervalActive) ==> unchanged(this)
      ensures status == old(status) && data == old(data)
      ensures time == old(time) && hr == old(hr) && gsr == old(gsr) && stress == old(stress)
    {
      if intervalActive {
        intervalActive := false;
      }
    }

    /** Stops the stream, then resets the status and empties the window,
        from any state. */
    method Disconnect()
      requires Valid()
      modifies this
      ensures Valid()
      ensures status == Disconnected && data == [] && !intervalActive
      ensures time == old(time) && hr == old(hr) && gsr == old(gsr) && stress == old(stress)
    {
      StopSimulation();
      status := Disconnected;
      data := [];
    }
  }
}
