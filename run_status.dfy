/**
 * The status record of one test run, and updateStatus, the one operation that moves a
 * record from state to state. The states are the five strings the service writes.
 * Times are milliseconds taken as parameters; the duration text, test counts and
 * Kubernetes fields of the record are never written by the modelled code and are left out.
 */
module RunStatus {
  import opened Wrappers
  import RunIds

  datatype State = QUEUED | RUNNING | COMPLETED | FAILED | CANCELLED

  /** A metadata value: a key such as the cycle or ticket key, or a list of test-case keys. */
  datatype MetaValue = Text(text: string) | Keys(keys: seq<string>)

  datatype TestStatus = TestStatus(
    runId: RunIds.Uuid,
    state: State,
    environment: Option<string>,
    progress: Option<int>,
    startTime: Option<int>,
    endTime: Option<int>,
    currentPhase: Option<string>,
    errorMessage: Option<string>,
    jiraTicketKey: Option<string>,
    reportUrls: Option<map<string, string>>,
    metadata: Option<map<string, MetaValue>>)

  /** The record queueTestExecution stores: QUEUED, progress 0, nothing else set. */
  function Queued(runId: RunIds.Uuid, environment: Option<string>): (s: TestStatus)
    ensures s.runId == runId && s.state == QUEUED && s.progress == Some(0) && s.environment == environment
    ensures s.startTime.None? && s.endTime.None? && s.errorMessage.None? && s.reportUrls.None?
  {
    TestStatus(runId, QUEUED, environment, Some(0), None, None, None, None, None, None, None)
  }

  /**
   * updateStatus: when the run is known its state is overwritten, whatever it was, and its
   * error message replaced when one is given; an unknown run is left alone.
   */
  function UpdateStatus(m: map<RunIds.Uuid, TestStatus>, id: RunIds.Uuid, state: State, message: Option<string>)
    : (r: map<RunIds.Uuid, TestStatus>)
    ensures r.Keys == m.Keys
    ensures forall k :: k in m && k != id ==> r[k] == m[k]
    ensures id in m ==> r[id].state == state
    ensures id in m && message.Some? ==> r[id].errorMessage == message
    ensures id in m && message.None? ==> r[id].errorMessage == m[id].errorMessage
    ensures id in m ==> r[id] == m[id].(state := state, errorMessage := r[id].errorMessage)
  {
    if id !in m then m
    else
      var s := m[id];
      m[id := s.(state := state, errorMessage := if message.Some? then message else s.errorMessage)]
  }
}
