/** The records ansible-runner writes as job events, and the two event
    types that mean a task failed or a host was unreachable. */
module JobEvent {
  import Json

  const EventTypeRunnerFailed: string := "runner_on_failed"
  const EventTypeRunnerUnreachable: string := "runner_on_unreachable"

  /** The failure tags are exactly these two, and they differ. */
  predicate IsFailureTag(event: string) {
    event == EventTypeRunnerFailed || event == EventTypeRunnerUnreachable
  }

  /** One event file (`uuid`, `stdout`, `event`, `event_data`), already
      decoded; a missing `event_data` is the empty map. */
  datatype JobEvent = JobEvent(uuid: string, stdout: string, event: string, eventData: map<string, Json.Value>)

  /** The fields of a failure event's `event_data` that the diagnosis reads. */
  datatype RunnerEventData = RunnerEventData(play: string, task: string, host: string, result: RunnerResult, ignoreErrors: bool)

  /** The `res` object of a failure event. */
  datatype RunnerResult = RunnerResult(msg: string)
}
