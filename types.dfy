/** Shared declarations of the dashboard: the data point, the connection
    status, the advice response and the two constants the pipeline uses. */
module Types {

  datatype Option<+T> = None | Some(value: T)

  datatype Result<+R, +E> = Success(value: R) | Failure(error: E)

  /** One finalized sample of the stream. The three measures are JavaScript
      numbers, modelled as reals; the timestamp is milliseconds since epoch. */
  datatype BiometricDataPoint = BiometricDataPoint(
    timestamp: int,
    heartRate: real,   // beats per minute
    gsr: real,         // skin conductance in microsiemens
    stressScore: real  // derived stress index
  )

  /** The five members of the status enumeration. The session only ever uses
      Disconnected, Connecting and Simulation. */
  datatype ConnectionStatus = Disconnected | Connecting | Connected | Simulation | Error

  datatype RecommendationType = Breathing | Cognitive | Physical | Mindfulness

  datatype Recommendation = Recommendation(id: string, title: string, description: string, kind: RecommendationType)

  /** The parsed advice returned by the remote model. */
  datatype AIResponse = AIResponse(analysis: string, recommendations: seq<Recommendation>)

  /** Number of points the rolling window keeps (about one minute at 1 Hz). */
  const DataWindowSize: nat := 60

  /** Stress score above which the dashboard reports high stress. */
  const StressHigh: real := 75.0
}
