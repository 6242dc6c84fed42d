/** The task record the gateway exchanges with the queue backend (kewpie's `Task`). */
module Tasks {

  /** `time.Duration`: a signed number of nanoseconds. */
  type Duration = int

  /**
   * A stand-in for `time.Time`: the gateway only stores and copies times and never looks
   * inside them, so the fields are a placeholder. `ZeroTime` stands for Go's zero time.
   */
  datatype Time = Time(secondsSinceYearOne: int, nanos: int, zoneOffset: int)

  const ZeroTime := Time(0, 0, 0)

  /** One unit of queued work. `id` and `attempts` are assigned by the backend. */
  datatype Task = Task(
    id: string,
    body: string,
    delay: Duration,
    runAt: Time,
    noExpBackoff: bool,
    attempts: int,
    tags: map<string, string>)

  /** `kewpie.Task{}`: every field at its zero value. */
  const ZeroTask := Task("", "", 0, ZeroTime, false, 0, map[])
}
