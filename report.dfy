/** The status report a device publishes about itself: `Status` and `AliveReport`. */
module Report {

  /** A reading of the local clock. The program takes exactly one, when it starts. */
  type Timestamp = int

  datatype Status = Alive | Reconnected | Dead

  /** The payload of every publication and of the last will, before JSON encoding. */
  datatype AliveReport = AliveReport(unitName: string, status: Status, startTime: Timestamp)

  /**
   * Whether JSON serialisation succeeds on a report. The encoded text itself is
   * not modelled; serialisation is deterministic, so it is a function of the report.
   */
  type Serializer = AliveReport -> bool

  /** The context `main` attaches to every serialisation failure (all three sites use it). */
  const SerializeContext := "Failed to serialize last will message"
}
