/**
 * The run orchestrator of TestExecutionService, as a sequential state machine: the status
 * records, the in-flight task handles, the submitted tasks and the permit counter of the
 * concurrency limiter. A worker's progress is a sequence of events (permit acquired or
 * interrupted, engine returned or threw); clocks, run ids and the engine's exit code are
 * parameters of those events.
 */
module ExecutionService {
  import opened Wrappers
  import Text
  import RunIds
  import RunStatus
  import ExecutionRequest
  import ReportMerge

  const MAX_CONCURRENT_RUNS := 5
  const STATUS_URL_PREFIX := "/api/v1/test/status/"
  const QUEUED_MESSAGE := "Test execution queued successfully"
  const INTERRUPTED_MESSAGE := "Interrupted while waiting in queue"
  const CANCELLED_MESSAGE := "Cancelled by user"
  const EXIT_CODE_MESSAGE := "Tests finished with exit code: "
  const EXECUTING_PHASE := "EXECUTING"
  const COMPLETED_PHASE := "COMPLETED"
  const CUCUMBER_REPORT := "cucumber-report"
  const ACCESSIBILITY := "accessibility"
  const ALLURE := "allure"

  // ---------------------------------------------------------------- tags and report links

  /** A tag with "@" in front, added only when it is missing. */
  function WithAt(tag: string): (r: string)
    ensures Text.StartsWith(r, "@")
    ensures Text.StartsWith(tag, "@") ==> r == tag
    ensures !Text.StartsWith(tag, "@") ==> r == "@" + tag
  {
    if Text.StartsWith(tag, "@") then tag else "@" + tag
  }

  function WithAtAll(tags: seq<string>): (r: seq<string>)
    ensures |r| == |tags| && forall i :: 0 <= i < |tags| ==> r[i] == WithAt(tags[i])
  {
    if tags == [] then [] else [WithAt(tags[0])] + WithAtAll(tags[1..])
  }

  /** buildTagsExpression: null for no tags; otherwise the tags, each with "@", joined by " or ". */
  function BuildTagsExpression(tags: Option<seq<string>>): (r: Option<string>)
    ensures r.None? <==> tags.None? || tags.value == []
    ensures r.Some? ==> r.value == Text.Join(WithAtAll(tags.value), " or ") && Text.StartsWith(r.value, "@")
  {
    if tags.None? || tags.value == [] then None
    else
      var parts := WithAtAll(tags.value);
      JoinStartsWithFirst(parts, " or ");
      Some(Text.Join(parts, " or "))
  }

  lemma JoinStartsWithFirst(parts: seq<string>, sep: string)
    requires parts != []
    ensures Text.StartsWith(Text.Join(parts, sep), parts[0])
  {
    if |parts| > 1 {
      var j := Text.Join(parts, sep);
      assert j == parts[0] + (sep + Text.Join(parts[1..], sep));
      assert j[..|parts[0]|] == parts[0];
    }
  }

  /** Adding "@" twice is adding it once, so an expression's tags survive another pass. */
  lemma WithAtIdempotent(tags: seq<string>)
    ensures WithAtAll(WithAtAll(tags)) == WithAtAll(tags)
  {
  }

  /** A tag that marks a back-end run: "Backend" or "API-Test", an optional "@" stripped, any case. */
  predicate IsBackendTag(tag: string) {
    var name := if Text.StartsWith(tag, "@") then tag[1..] else tag;
    Text.EqualsIgnoreCase(name, "Backend") || Text.EqualsIgnoreCase(name, "API-Test")
  }

  predicate IsBackendOnly(tags: Option<seq<string>>) {
    tags.Some? && tags.value != [] && forall i :: 0 <= i < |tags.value| ==> IsBackendTag(tags.value[i])
  }

  /** One leading "@" is ignored: "@Backend" and "Backend" are the same tag, "@@Backend" is not. */
  lemma {:induction false} BackendTagAtStripped(tag: string)
    requires !Text.StartsWith(tag, "@")
    ensures IsBackendTag("@" + tag) <==> IsBackendTag(tag)
  {
    assert ("@" + tag)[1..] == tag;
  }

  /** A single tag that is not a back-end one makes the run need its accessibility report. */
  lemma {:induction false} MixedRunNotBackendOnly(tags: seq<string>, i: nat)
    requires i < |tags| && !IsBackendTag(tags[i])
    ensures !IsBackendOnly(Some(tags))
    ensures forall extra :: !IsBackendOnly(Some(tags + extra))
  {
    forall extra: seq<string>
      ensures !IsBackendOnly(Some(tags + extra))
    {
      assert (tags + extra)[i] == tags[i];
    }
  }

  lemma ReportKeysDistinct()
    ensures CUCUMBER_REPORT != ACCESSIBILITY && CUCUMBER_REPORT != ALLURE && ACCESSIBILITY != ALLURE
  {
    assert CUCUMBER_REPORT[0] != ACCESSIBILITY[0];
    assert CUCUMBER_REPORT[0] != ALLURE[0];
    assert ACCESSIBILITY[1] != ALLURE[1];
  }

  /** The report links of a finished run: always the Cucumber report, the accessibility one unless back-end only. */
  function ReportUrls(runId: RunIds.Uuid, tags: Option<seq<string>>): (r: map<string, string>)
    ensures CUCUMBER_REPORT in r && r[CUCUMBER_REPORT] == "/reports/" + runId + "/cucumber-reports/Cucumber.html"
    ensures ACCESSIBILITY in r <==> !IsBackendOnly(tags)
    ensures ACCESSIBILITY in r ==> r[ACCESSIBILITY] == "/reports/" + runId + "/axe-result/index.html"
    ensures ALLURE !in r
  {
    ReportKeysDistinct();
    var urls := map[CUCUMBER_REPORT := "/reports/" + runId + "/cucumber-reports/Cucumber.html"];
    if IsBackendOnly(tags) then urls else urls[ACCESSIBILITY := "/reports/" + runId + "/axe-result/index.html"]
  }

  // ---------------------------------------------------------------- worker outcomes

  /** A record once the engine has returned: end time, progress 100, phase COMPLETED and the report links. */
  function Finished(s: RunStatus.TestStatus, exitCode: int, now: int, urls: map<string, string>)
    : (r: RunStatus.TestStatus)
    ensures r.endTime == Some(now) && r.progress == Some(100) && r.currentPhase == Some(COMPLETED_PHASE)
    ensures r.reportUrls == Some(urls)
    ensures r.state == RunStatus.COMPLETED <==> exitCode == 0
    ensures exitCode != 0 ==> r.state == RunStatus.FAILED &&
                              r.errorMessage == Some(EXIT_CODE_MESSAGE + Text.IntToString(exitCode))
    ensures exitCode == 0 ==> r.errorMessage == s.errorMessage
    ensures r.runId == s.runId && r.environment == s.environment && r.startTime == s.startTime
    ensures r.jiraTicketKey == s.jiraTicketKey && r.metadata == s.metadata
  {
    var done := s.(endTime := Some(now), progress := Some(100), currentPhase := Some(COMPLETED_PHASE),
                   reportUrls := Some(urls));
    if exitCode == 0 then done.(state := RunStatus.COMPLETED)
    else done.(state := RunStatus.FAILED, errorMessage := Some(EXIT_CODE_MESSAGE + Text.IntToString(exitCode)))
  }

  /** The report links after the per-run Allure report: "allure" is added when the report was produced. */
  function FinalUrls(runId: RunIds.Uuid, tags: Option<seq<string>>, allureProduced: bool): (r: map<string, string>)
    ensures ALLURE in r <==> allureProduced
    ensures allureProduced ==> r[ALLURE] == ReportMerge.ReportUrl(runId)
    ensures forall k :: k in ReportUrls(runId, tags) ==> k in r && r[k] == ReportUrls(runId, tags)[k]
    ensures forall k :: k in r && k != ALLURE ==> k in ReportUrls(runId, tags)
  {
    var urls := ReportUrls(runId, tags);
    if allureProduced then urls[ALLURE := ReportMerge.ReportUrl(runId)] else urls
  }

  // ---------------------------------------------------------------- queries

  predicate IsActive(s: RunStatus.TestStatus) {
    s.state == RunStatus.QUEUED || s.state == RunStatus.RUNNING
  }

  /** getActiveTests: exactly the QUEUED and RUNNING records. */
  function ActiveTests(m: map<RunIds.Uuid, RunStatus.TestStatus>): (r: map<RunIds.Uuid, RunStatus.TestStatus>)
    ensures forall id :: id in r <==> id in m && IsActive(m[id])
    ensures forall id :: id in r ==> r[id] == m[id]
  {
    map id | id in m && IsActive(m[id]) :: m[id]
  }

  datatype Statistics = Statistics(totalRuns: nat, completedRuns: nat, failedRuns: nat, runningRuns: nat,
                                   queuedRuns: nat, maxConcurrentRuns: nat)

  /** The records getStatistics looks at: all of them, or those of one environment. */
  function Selected(m: map<RunIds.Uuid, RunStatus.TestStatus>, environment: Option<string>): set<RunIds.Uuid> {
    set id | id in m && (environment.None? || m[id].environment == environment)
  }

  function WithState(m: map<RunIds.Uuid, RunStatus.TestStatus>, ids: set<RunIds.Uuid>, state: RunStatus.State)
    : (r: set<RunIds.Uuid>)
    ensures r <= ids
  {
    set id | id in ids && id in m && m[id].state == state
  }

  lemma SubsetCard<T>(a: set<T>, b: set<T>)
    requires a <= b
    ensures |a| <= |b|
  {
    assert b == a + (b - a);
  }

  /** getStatistics: the total and the per-state counts of the selected records (the success rate is left out). */
  function GetStatistics(m: map<RunIds.Uuid, RunStatus.TestStatus>, environment: Option<string>): (r: Statistics)
    ensures environment.None? ==> r.totalRuns == |m|
    ensures r.totalRuns == |Selected(m, environment)|
    ensures r.completedRuns <= r.totalRuns && r.failedRuns <= r.totalRuns
    ensures r.runningRuns <= r.totalRuns && r.queuedRuns <= r.totalRuns
    ensures r.maxConcurrentRuns == MAX_CONCURRENT_RUNS
  {
    var sel := Selected(m, environment);
    assert environment.None? ==> sel == m.Keys;
    var completed := WithState(m, sel, RunStatus.COMPLETED);
    var failed := WithState(m, sel, RunStatus.FAILED);
    var running := WithState(m, sel, RunStatus.RUNNING);
    var queued := WithState(m, sel, RunStatus.QUEUED);
    SubsetCard(completed, sel);
    SubsetCard(failed, sel);
    SubsetCard(running, sel);
    SubsetCard(queued, sel);
    Statistics(|sel|, |completed|, |failed|, |running|, |queued|, MAX_CONCURRENT_RUNS)
  }

  /** Disjoint sets: the size of the union is the sum of the sizes. */
  lemma DisjointCard<T>(a: set<T>, b: set<T>)
    requires a !! b
    ensures |a + b| == |a| + |b|
  {
  }

  lemma StatesCover(m: map<RunIds.Uuid, RunStatus.TestStatus>, sel: set<RunIds.Uuid>)
    requires sel <= m.Keys
    ensures sel == WithState(m, sel, RunStatus.COMPLETED) + WithState(m, sel, RunStatus.FAILED) +
                   WithState(m, sel, RunStatus.RUNNING) + WithState(m, sel, RunStatus.QUEUED) +
                   WithState(m, sel, RunStatus.CANCELLED)
  {
  }

  /**
   * The four buckets and the CANCELLED records, which no bucket counts, make up the total.
   */
  lemma {:induction false} StatisticsPartition(m: map<RunIds.Uuid, RunStatus.TestStatus>, environment: Option<string>)
    ensures var r := GetStatistics(m, environment);
            r.completedRuns + r.failedRuns + r.runningRuns + r.queuedRuns +
            |WithState(m, Selected(m, environment), RunStatus.CANCELLED)| == r.totalRuns
  {
    var sel := Selected(m, environment);
    StateCountsAddUp(m, sel);
  }

  /** Every selected record is in exactly one state, so the five state counts add up to the selection. */
  lemma StateCountsAddUp(m: map<RunIds.Uuid, RunStatus.TestStatus>, sel: set<RunIds.Uuid>)
    requires sel <= m.Keys
    ensures |WithState(m, sel, RunStatus.COMPLETED)| + |WithState(m, sel, RunStatus.FAILED)| +
            |WithState(m, sel, RunStatus.RUNNING)| + |WithState(m, sel, RunStatus.QUEUED)| +
            |WithState(m, sel, RunStatus.CANCELLED)| == |sel|
  {
    var c := WithState(m, sel, RunStatus.COMPLETED);
    var f := WithState(m, sel, RunStatus.FAILED);
    var r := WithState(m, sel, RunStatus.RUNNING);
    var q := WithState(m, sel, RunStatus.QUEUED);
    var x := WithState(m, sel, RunStatus.CANCELLED);
    StatesCover(m, sel);
    assert c + f !! r;
    assert c + f + r !! q;
    assert c + f + r + q !! x;
    DisjointCard(c, f);
    DisjointCard(c + f, r);
    DisjointCard(c + f + r, q);
    DisjointCard(c + f + r + q, x);
  }

  // ---------------------------------------------------------------- the store

  /** Where a submitted task is: waiting for a permit, holding one, or finished (or cancelled before it ran). */
  datatype Phase = Submitted | Executing | Done

  /** A submitted task: its phase and the arguments it was submitted with. */
  datatype Task = Task(phase: Phase, tags: Option<string>, features: Option<string>,
                       request: ExecutionRequest.TestExecutionRequest)

  function ExecutingIds(tasks: map<RunIds.Uuid, Task>): set<RunIds.Uuid> {
    set id | id in tasks && tasks[id].phase == Executing
  }

  function RunningIds(m: map<RunIds.Uuid, RunStatus.TestStatus>): set<RunIds.Uuid> {
    set id | id in m && m[id].state == RunStatus.RUNNING
  }

  /**
   * The store's invariant: every record and handle belongs to a submitted task; the permits
   * taken are the tasks holding one; a RUNNING record's task holds a permit; a QUEUED record's
   * task is still waiting, with its handle; a live handle of an executing task has a RUNNING record.
   */
  predicate Consistent(statusMap: map<RunIds.Uuid, RunStatus.TestStatus>, handles: set<RunIds.Uuid>,
                       tasks: map<RunIds.Uuid, Task>, permits: int)
  {
    statusMap.Keys <= tasks.Keys && handles <= tasks.Keys &&
    0 <= permits && permits + |ExecutingIds(tasks)| == MAX_CONCURRENT_RUNS &&
    (forall id :: id in statusMap ==> statusMap[id].runId == id) &&
    (forall id :: id in statusMap && statusMap[id].state == RunStatus.RUNNING ==> tasks[id].phase == Executing) &&
    (forall id :: id in statusMap && statusMap[id].state == RunStatus.QUEUED ==> tasks[id].phase == Submitted) &&
    (forall id :: id in tasks && tasks[id].phase == Submitted ==>
       id in handles && id in statusMap && statusMap[id].state == RunStatus.QUEUED) &&
    (forall id :: id in handles && tasks[id].phase == Executing ==>
       id in statusMap && statusMap[id].state == RunStatus.RUNNING)
  }

  /** At most MAX_CONCURRENT_RUNS runs are RUNNING, and the permits stay within 0..5. */
  lemma RunningAtMostMax(statusMap: map<RunIds.Uuid, RunStatus.TestStatus>, handles: set<RunIds.Uuid>,
                         tasks: map<RunIds.Uuid, Task>, permits: int)
    requires Consistent(statusMap, handles, tasks, permits)
    ensures |RunningIds(statusMap)| <= MAX_CONCURRENT_RUNS - permits
    ensures 0 <= permits <= MAX_CONCURRENT_RUNS
  {
    SubsetCard(RunningIds(statusMap), ExecutingIds(tasks));
  }

  lemma StartExecuting(tasks: map<RunIds.Uuid, Task>, id: RunIds.Uuid, t: Task)
    requires id in tasks && tasks[id].phase != Executing && t.phase == Executing
    ensures ExecutingIds(tasks[id := t]) == ExecutingIds(tasks) + {id}
    ensures |ExecutingIds(tasks[id := t])| == |ExecutingIds(tasks)| + 1
  {
    assert ExecutingIds(tasks[id := t]) == ExecutingIds(tasks) + {id};
  }

  lemma StopExecuting(tasks: map<RunIds.Uuid, Task>, id: RunIds.Uuid, t: Task)
    requires id in tasks && tasks[id].phase == Executing && t.phase != Executing
    ensures ExecutingIds(tasks[id := t]) == ExecutingIds(tasks) - {id}
    ensures |ExecutingIds(tasks[id := t])| == |ExecutingIds(tasks)| - 1
  {
    assert ExecutingIds(tasks[id := t]) == ExecutingIds(tasks) - {id};
  }

  lemma NotExecuting(tasks: map<RunIds.Uuid, Task>, id: RunIds.Uuid, t: Task)
    requires id in tasks ==> tasks[id].phase != Executing
    requires t.phase != Executing
    ensures ExecutingIds(tasks[id := t]) == ExecutingIds(tasks)
  {
    assert ExecutingIds(tasks[id := t]) == ExecutingIds(tasks);
  }

  // Each step of the store keeps Consistent.

  lemma QueueKeeps(sm: map<RunIds.Uuid, RunStatus.TestStatus>, h: set<RunIds.Uuid>, t: map<RunIds.Uuid, Task>,
                   p: int, id: RunIds.Uuid, s: RunStatus.TestStatus, task: Task)
    requires Consistent(sm, h, t, p) && id !in t
    requires s.runId == id && s.state == RunStatus.QUEUED && task.phase == Submitted
    ensures Consistent(sm[id := s], h + {id}, t[id := task], p)
  {
    NotExecuting(t, id, task);
  }

  lemma AcquireKeeps(sm: map<RunIds.Uuid, RunStatus.TestStatus>, h: set<RunIds.Uuid>, t: map<RunIds.Uuid, Task>,
                     p: int, id: RunIds.Uuid, s: RunStatus.TestStatus)
    requires Consistent(sm, h, t, p) && id in t && t[id].phase == Submitted && p > 0
    requires s.runId == id && s.state == RunStatus.RUNNING
    ensures Consistent(sm[id := s], h, t[id := t[id].(phase := Executing)], p - 1)
  {
    StartExecuting(t, id, t[id].(phase := Executing));
  }

  lemma InterruptKeeps(sm: map<RunIds.Uuid, RunStatus.TestStatus>, h: set<RunIds.Uuid>, t: map<RunIds.Uuid, Task>,
                       p: int, id: RunIds.Uuid, s: RunStatus.TestStatus)
    requires Consistent(sm, h, t, p) && id in t && t[id].phase == Submitted
    requires s.runId == id && s.state == RunStatus.CANCELLED
    ensures Consistent(sm[id := s], h, t[id := t[id].(phase := Done)], p)
  {
    NotExecuting(t, id, t[id].(phase := Done));
  }

  lemma FinishKeeps(sm: map<RunIds.Uuid, RunStatus.TestStatus>, h: set<RunIds.Uuid>, t: map<RunIds.Uuid, Task>,
                    p: int, id: RunIds.Uuid, s: RunStatus.TestStatus)
    requires Consistent(sm, h, t, p) && id in t && t[id].phase == Executing
    requires s.runId == id && !IsActive(s)
    ensures Consistent(sm[id := s], h - {id}, t[id := t[id].(phase := Done)], p + 1)
  {
    StopExecuting(t, id, t[id].(phase := Done));
  }

  /** A record deleted while its engine ran: only the permit and the handle are given back. */
  lemma FinishDeletedKeeps(sm: map<RunIds.Uuid, RunStatus.TestStatus>, h: set<RunIds.Uuid>, t: map<RunIds.Uuid, Task>,
                           p: int, id: RunIds.Uuid)
    requires Consistent(sm, h, t, p) && id in t && t[id].phase == Executing && id !in sm
    ensures Consistent(sm, h - {id}, t[id := t[id].(phase := Done)], p + 1)
  {
    StopExecuting(t, id, t[id].(phase := Done));
  }

  lemma CancelKeeps(sm: map<RunIds.Uuid, RunStatus.TestStatus>, h: set<RunIds.Uuid>, t: map<RunIds.Uuid, Task>,
                    p: int, id: RunIds.Uuid, s: RunStatus.TestStatus)
    requires Consistent(sm, h, t, p) && id in h && t[id].phase != Done
    requires s.runId == id && s.state == RunStatus.CANCELLED
    ensures t[id].phase == Submitted ==> Consistent(sm[id := s], h - {id}, t[id := t[id].(phase := Done)], p)
    ensures t[id].phase == Executing ==> Consistent(sm[id := s], h - {id}, t, p)
  {
    if t[id].phase == Submitted {
      NotExecuting(t, id, t[id].(phase := Done));
    }
  }

  lemma DeleteKeeps(sm: map<RunIds.Uuid, RunStatus.TestStatus>, h: set<RunIds.Uuid>, t: map<RunIds.Uuid, Task>,
                    p: int, id: RunIds.Uuid)
    requires Consistent(sm, h, t, p) && id in sm && !IsActive(sm[id])
    ensures Consistent(sm - {id}, h, t, p)
  {
  }

  /**
   * The record updates of executeTest once the engine returned: end time, progress, phase and
   * links, then updateStatus with the exit code's outcome, then the Allure link.
   */
  method FinishRecord(s: RunStatus.TestStatus, exitCode: int, now: int, runId: RunIds.Uuid,
                      tags: Option<seq<string>>, allureProduced: bool)
    returns (status: RunStatus.TestStatus)
    ensures status == Finished(s, exitCode, now, FinalUrls(runId, tags, allureProduced))
  {
    var urls := ReportUrls(runId, tags);
    status := s.(endTime := Some(now), progress := Some(100), currentPhase := Some(COMPLETED_PHASE),
                 reportUrls := Some(urls));
    if exitCode == 0 {
      status := status.(state := RunStatus.COMPLETED);
    } else {
      status := status.(state := RunStatus.FAILED, errorMessage := Some(EXIT_CODE_MESSAGE + Text.IntToString(exitCode)));
    }
    if allureProduced {
      urls := urls[ALLURE := ReportMerge.ReportUrl(runId)];
    }
    status := status.(reportUrls := Some(urls));
  }

  /**
   * The run's directory as the engine left it, with executor.json written into its
   * allure-results when the record is still there; writeExecutorJson skips a run without them.
   */
  method WriteRunExecutor(results: ReportMerge.ResultsRoot, id: RunIds.Uuid, engineOutput: Option<ReportMerge.Dir>,
                          recordKept: bool, request: ExecutionRequest.TestExecutionRequest, writeTime: int)
    returns (newResults: ReportMerge.ResultsRoot)
    ensures newResults == ReportMerge.WithRunOutput(results, id,
                            if recordKept then ReportMerge.WriteExecutorJson(engineOutput, id, request, writeTime)
                            else engineOutput)
  {
    newResults := ReportMerge.WithRunOutput(results, id, engineOutput);
    if recordKept && ReportMerge.HasResults(newResults, id) {
      var written := ReportMerge.WriteExecutorJson(newResults.dirs[id].allureResults, id, request, writeTime);
      newResults := ReportMerge.WithRunOutput(results, id, written);
    }
  }

  /**
   * The record updates of the worker after the engine returned, over the store's values: the
   * record is finished; with the release that follows, the invariant holds.
   */
  method FinishRun(sm: map<RunIds.Uuid, RunStatus.TestStatus>, h: set<RunIds.Uuid>, t: map<RunIds.Uuid, Task>,
                   p: int, id: RunIds.Uuid, exitCode: int, now: int, allureProduced: bool)
    returns (newStatusMap: map<RunIds.Uuid, RunStatus.TestStatus>)
    requires Consistent(sm, h, t, p) && id in t && t[id].phase == Executing
    ensures Consistent(newStatusMap, h - {id}, t[id := t[id].(phase := Done)], p + 1)
    ensures id !in sm ==> newStatusMap == sm
    ensures id in sm ==>
              newStatusMap == sm[id := Finished(sm[id], exitCode, now, FinalUrls(id, t[id].request.tags, allureProduced))]
  {
    newStatusMap := sm;
    if id in sm {
      var status := FinishRecord(sm[id], exitCode, now, id, t[id].request.tags, allureProduced);
      FinishKeeps(sm, h, t, p, id, status);
      newStatusMap := sm[id := status];
    } else {
      FinishDeletedKeeps(sm, h, t, p, id);
    }
  }

  /** The response of queueTestExecution. */
  datatype Response = Response(runId: RunIds.Uuid, state: RunStatus.State, environment: Option<string>,
                               message: string, tags: Option<string>, statusUrl: string)

  class TestExecutionService {
    var statusMap: map<RunIds.Uuid, RunStatus.TestStatus>
    /** The ids with an entry in runningFutures. */
    var runningFutures: set<RunIds.Uuid>
    /** The tasks handed to the executor. */
    var tasks: map<RunIds.Uuid, Task>
    /** The available permits of the concurrency limiter. */
    var permits: int
    /** The results base directory. */
    var results: ReportMerge.ResultsRoot

    ghost predicate Valid()
      reads this
    {
      Consistent(statusMap, runningFutures, tasks, permits)
    }

    constructor (results: ReportMerge.ResultsRoot)
      ensures Valid()
      ensures statusMap == map[] && runningFutures == {} && tasks == map[] && permits == MAX_CONCURRENT_RUNS
      ensures this.results == results
    {
      statusMap := map[];
      runningFutures := {};
      tasks := map[];
      permits := MAX_CONCURRENT_RUNS;
      this.results := results;
      assert ExecutingIds(map[]) == {};
    }

    /**
     * queueTestExecution: a QUEUED record with progress 0 is stored under the fresh run id,
     * the task is submitted and its handle kept.
     */
    method Queue(request: ExecutionRequest.TestExecutionRequest, runId: RunIds.Uuid) returns (response: Response)
      requires Valid()
      requires runId !in tasks
      modifies this
      ensures Valid()
      ensures statusMap == old(statusMap)[runId := RunStatus.Queued(runId, request.environment)]
      ensures runningFutures == old(runningFutures) + {runId}
      ensures tasks == old(tasks)[runId := Task(Submitted, BuildTagsExpression(request.tags),
                                                if request.features.Some? then Some(Text.Join(request.features.value, ","))
                                                else None, request)]
      ensures permits == old(permits) && results == old(results)
      ensures response == Response(runId, RunStatus.QUEUED, request.environment, QUEUED_MESSAGE,
                                   BuildTagsExpression(request.tags), STATUS_URL_PREFIX + runId)
    {
      var tagsExpression := BuildTagsExpression(request.tags);
      var features := if request.features.Some? then Some(Text.Join(request.features.value, ",")) else None;
      var task := Task(Submitted, tagsExpression, features, request);
      QueueKeeps(statusMap, runningFutures, tasks, permits, runId, RunStatus.Queued(runId, request.environment), task);
      statusMap := statusMap[runId := RunStatus.Queued(runId, request.environment)];
      tasks := tasks[runId := task];
      runningFutures := runningFutures + {runId};
      response := Response(runId, RunStatus.QUEUED, request.environment, QUEUED_MESSAGE, tagsExpression,
                           STATUS_URL_PREFIX + runId);
    }

    /** executeTest, permit acquired: the record becomes RUNNING with its start time and phase EXECUTING. */
    method Acquire(id: RunIds.Uuid, now: int)
      requires Valid()
      requires id in tasks && tasks[id].phase == Submitted && permits > 0
      modifies this
      ensures Valid()
      ensures permits == old(permits) - 1
      ensures tasks == old(tasks)[id := old(tasks)[id].(phase := Executing)]
      ensures id in old(statusMap)
      ensures statusMap == old(statusMap)[id := old(statusMap)[id].(state := RunStatus.RUNNING, startTime := Some(now),
                                                                     currentPhase := Some(EXECUTING_PHASE))]
      ensures runningFutures == old(runningFutures) && results == old(results)
    {
      var status := RunStatus.UpdateStatus(statusMap, id, RunStatus.RUNNING, None)[id];
      status := status.(startTime := Some(now), currentPhase := Some(EXECUTING_PHASE));
      AcquireKeeps(statusMap, runningFutures, tasks, permits, id, status);
      permits := permits - 1;
      statusMap := statusMap[id := status];
      tasks := tasks[id := tasks[id].(phase := Executing)];
    }

    /** executeTest, interrupted while waiting: CANCELLED, and neither the permit nor the handle is given back. */
    method InterruptedAcquire(id: RunIds.Uuid)
      requires Valid()
      requires id in tasks && tasks[id].phase == Submitted
      modifies this
      ensures Valid()
      ensures statusMap == RunStatus.UpdateStatus(old(statusMap), id, RunStatus.CANCELLED, Some(INTERRUPTED_MESSAGE))
      ensures tasks == old(tasks)[id := old(tasks)[id].(phase := Done)]
      ensures permits == old(permits) && runningFutures == old(runningFutures) && results == old(results)
    {
      InterruptKeeps(statusMap, runningFutures, tasks, permits, id,
                     RunStatus.UpdateStatus(statusMap, id, RunStatus.CANCELLED, Some(INTERRUPTED_MESSAGE))[id]);
      statusMap := RunStatus.UpdateStatus(statusMap, id, RunStatus.CANCELLED, Some(INTERRUPTED_MESSAGE));
      tasks := tasks[id := tasks[id].(phase := Done)];
    }

    /**
     * executeTest, engine returned: the run's directory, created by the runner before the
     * scenarios ran, is listed with the allure-results the engine left (none if it left none);
     * the record is finished with the exit code's outcome, the run's executor.json is written,
     * the Allure link added when the per-run report was produced; then the permit is released
     * and the handle removed. A record deleted while the engine ran stays deleted (the
     * NullPointerException path, which skips executor.json and the links).
     */
    method EngineReturns(id: RunIds.Uuid, engineOutput: Option<ReportMerge.Dir>, exitCode: int, now: int,
                         writeTime: int, allureRendered: bool)
      requires Valid()
      requires id in tasks && tasks[id].phase == Executing
      modifies this
      ensures Valid()
      ensures permits == old(permits) + 1
      ensures tasks == old(tasks)[id := old(tasks)[id].(phase := Done)]
      ensures runningFutures == old(runningFutures) - {id}
      ensures id !in old(statusMap) ==>
                statusMap == old(statusMap) && results == ReportMerge.WithRunOutput(old(results), id, engineOutput)
      ensures id in old(statusMap) ==>
                var request := old(tasks)[id].request;
                results == ReportMerge.WithRunOutput(old(results), id,
                             ReportMerge.WriteExecutorJson(engineOutput, id, request, writeTime)) &&
                statusMap == old(statusMap)[id := Finished(old(statusMap)[id], exitCode, now,
                               FinalUrls(id, request.tags, engineOutput.Some? && allureRendered))]
    {
      var newStatusMap := FinishRun(statusMap, runningFutures, tasks, permits, id, exitCode, now,
                                    engineOutput.Some? && allureRendered);
      results := WriteRunExecutor(results, id, engineOutput, id in statusMap, tasks[id].request, writeTime);
      statusMap := newStatusMap;
      permits := permits + 1;
      tasks := tasks[id := tasks[id].(phase := Done)];
      runningFutures := runningFutures - {id};
    }

    /** executeTest, engine threw: FAILED with the exception's message (if any) and the end time; permit and handle freed. */
    method EngineThrows(id: RunIds.Uuid, message: Option<string>, now: int)
      requires Valid()
      requires id in tasks && tasks[id].phase == Executing
      modifies this
      ensures Valid()
      ensures permits == old(permits) + 1
      ensures tasks == old(tasks)[id := old(tasks)[id].(phase := Done)]
      ensures runningFutures == old(runningFutures) - {id}
      ensures id !in old(statusMap) ==> statusMap == old(statusMap)
      ensures id in old(statusMap) ==>
                statusMap == old(statusMap)[id := RunStatus.UpdateStatus(old(statusMap), id, RunStatus.FAILED, message)[id]
                                                    .(endTime := Some(now))]
      ensures results == old(results)
    {
      if id in statusMap {
        var status := RunStatus.UpdateStatus(statusMap, id, RunStatus.FAILED, message)[id].(endTime := Some(now));
        FinishKeeps(statusMap, runningFutures, tasks, permits, id, status);
        statusMap := statusMap[id := status];
      } else {
        FinishDeletedKeeps(statusMap, runningFutures, tasks, permits, id);
      }
      permits := permits + 1;
      tasks := tasks[id := tasks[id].(phase := Done)];
      runningFutures := runningFutures - {id};
    }

    /**
     * cancelTestExecution: only with a handle whose task is not done. The record becomes
     * CANCELLED with "Cancelled by user" and an end time, and the handle is removed. A task
     * still waiting never runs; one that is executing goes on (its later events still apply).
     */
    method Cancel(id: RunIds.Uuid, now: int) returns (r: Option<RunStatus.TestStatus>)
      requires Valid()
      modifies this
      ensures Valid()
      ensures permits == old(permits) && results == old(results)
      ensures !(id in old(runningFutures) && old(tasks)[id].phase != Done) ==>
                r.None? && statusMap == old(statusMap) && runningFutures == old(runningFutures) && tasks == old(tasks)
      ensures id in old(runningFutures) && old(tasks)[id].phase != Done ==>
                id in old(statusMap) &&
                statusMap == old(statusMap)[id := old(statusMap)[id].(state := RunStatus.CANCELLED,
                                                  errorMessage := Some(CANCELLED_MESSAGE), endTime := Some(now))] &&
                r == Some(statusMap[id]) &&
                runningFutures == old(runningFutures) - {id} &&
                tasks == (if old(tasks)[id].phase == Submitted then old(tasks)[id := old(tasks)[id].(phase := Done)]
                          else old(tasks))
    {
      if id in runningFutures && tasks[id].phase != Done {
        var status := RunStatus.UpdateStatus(statusMap, id, RunStatus.CANCELLED, Some(CANCELLED_MESSAGE))[id]
                        .(endTime := Some(now));
        CancelKeeps(statusMap, runningFutures, tasks, permits, id, status);
        statusMap := statusMap[id := status];
        runningFutures := runningFutures - {id};
        if tasks[id].phase == Submitted {
          tasks := tasks[id := tasks[id].(phase := Done)];
        }
        r := Some(status);
      } else {
        r := None;
      }
    }

    /** deleteTestExecution: unknown, QUEUED and RUNNING runs are kept; any other record and its results are removed. */
    method Delete(id: RunIds.Uuid) returns (deleted: bool)
      requires Valid()
      modifies this
      ensures Valid()
      ensures deleted <==> id in old(statusMap) && !IsActive(old(statusMap)[id])
      ensures deleted ==> statusMap == old(statusMap) - {id} &&
                          results == old(results).(dirs := old(results).dirs - {id})
      ensures !deleted ==> statusMap == old(statusMap) && results == old(results)
      ensures runningFutures == old(runningFutures) && tasks == old(tasks) && permits == old(permits)
    {
      if id !in statusMap || IsActive(statusMap[id]) {
        return false;
      }
      DeleteKeeps(statusMap, runningFutures, tasks, permits, id);
      statusMap := statusMap - {id};
      results := results.(dirs := results.dirs - {id});
      deleted := true;
    }
  }
}
