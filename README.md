# CucumberTestProject: a verified model of the test-execution service

This project models the core of a Spring service that runs Cucumber test suites on demand. It also models the pieces around the service.

- **TestExecutionService** queues a run, waits for one of five permits, runs the engine on a worker and records the outcome in a status record. It answers the active-list and statistics queries, cancels and deletes runs, and merges the Allure results of several runs into one combined report.
- **CucumberRunnerService** normalises the tag label and builds the engine's command line.
- **ZephyrScaleService** uploads a finished run to Zephyr Scale and opens a Jira ticket for a failed one.
- **AxeReportHook** escapes HTML, scans each page URL once per run, summarises the saved axe results and chooses each scan's status badge.
- **TestContext** holds the per-run output directories.
- **ConfigReader** (main and test copies) resolves a setting through a precedence chain.
- **TestExecutionRequest** carries validation rules and builder defaults.
- **ApiSteps** provides the `kurz` shortening and the comparison table.
- **BasePage** (main and test copies) selects the browser.

Four shared modules support the others:

- `Wrappers`: `Option`, `Result` and the Java exceptions used.
- `Text`: the `java.lang.String` operations over `seq<char>`.
- `RunIds`: the canonical UUID text, its 8-character short form and `UUID.fromString`.
- `RunStatus`: the `TestStatus` record and `updateStatus`.

State the source changes in place is modelled as classes:

- `ExecutionService.TestExecutionService` holds the status map, the in-flight handles, the submitted tasks, the permit counter and the results directory.
- `TestContext.RunContext` holds the run id and output base.
- `AxeReport.ScanRegistry` holds the scanned-URL registry.
- The two `PageObject` classes hold the browser and page fields.

The rest is modelled as functions and lemmas, with loops as methods proved against those functions.

The worker is modelled as a sequence of discrete events (permit acquired, acquire interrupted, engine returned, engine threw). The store invariant `ExecutionService.Consistent` is kept by every event and by queue, cancel and delete. From that invariant, `RunningAtMostMax` proves that at most five records are RUNNING and that the permits stay within 0..5. `updateStatus` overwrites the state unconditionally, so a late engine event after a cancel overwrites CANCELLED. The model does exactly that and claims nothing about terminal states.

Where the code and its description disagree, the model follows the code:

- `getStatistics` counts CANCELLED runs in the total but in no bucket, so the buckets do not sum to the total. `ExecutionService.StatisticsPartition` proves that the buckets plus the CANCELLED runs do.
- `TestExecutionRequest.java` declares no `projectKey`, but `ZephyrScaleService` reads `request.getProjectKey()`. The model adds an optional `projectKey` field to the request.
- The comment on `beautifyTitle` gives the example "Login Successfully - Audit", but the regular expressions do not change case, so the code yields "... - audit". The model follows the code.

Inputs that the code takes from the outside world are parameters of the model:

- clocks and timestamps;
- new run ids;
- the date formatter;
- environment variables and system properties;
- the Zephyr and Jira clients (a script of replies);
- the Cucumber engine (a function from arguments to exit code);
- the Allure renderer (whether it produced `index.html`).

## Model

| member | source | states |
|---|---|---|
| RunStatus.Queued | src/main/java/org/example/cucumber/service/TestExecutionService.java:57-62 | the stored record has the run id, state QUEUED, the request's environment and progress 0, and no start or end time, error message or report links |
| RunStatus.UpdateStatus | src/main/java/org/example/cucumber/service/TestExecutionService.java:160-168 | a known run's state is overwritten whatever it was; the message is replaced only when one is given; no other record or field changes; an unknown run leaves the map unchanged |
| RunIds.Short | src/main/java/org/example/cucumber/service/TestExecutionService.java:437 | the short id is the first 8 characters of the UUID text and contains no bracket or space |
| RunIds.ParseUuid | src/main/java/org/example/cucumber/service/TestExecutionService.java:305-311 | a directory name parses iff it has the 8-4-4-4-12 hex layout; the id is its lower-case text, and a canonical name is its own id |
| ExecutionService.WithAt | src/main/java/org/example/cucumber/service/TestExecutionService.java:593 | the tag starts with "@"; a tag that already has it is unchanged, otherwise "@" is prepended |
| ExecutionService.WithAtAll | src/main/java/org/example/cucumber/service/TestExecutionService.java:592-593 | same length, element i is tag i with "@" |
| ExecutionService.BuildTagsExpression | src/main/java/org/example/cucumber/service/TestExecutionService.java:590-595 | null exactly for null or empty tags; otherwise the "@"-prefixed tags joined by " or ", which starts with "@" |
| ExecutionService.JoinStartsWithFirst | src/main/java/org/example/cucumber/service/TestExecutionService.java:592-594 | a joined expression starts with its first tag |
| ExecutionService.WithAtIdempotent | src/main/java/org/example/cucumber/service/TestExecutionService.java:593 | prefixing "@" twice is prefixing it once |
| ExecutionService.ReportUrls | src/main/java/org/example/cucumber/service/TestExecutionService.java:119-131 | the cucumber-report link is always present; the accessibility link is present iff the tags are not all Backend/API-Test (case and a leading "@" ignored); no allure link yet |
| ExecutionService.BackendTagAtStripped | src/main/java/org/example/cucumber/service/TestExecutionService.java:124-126 | one leading "@" is ignored when a tag is tested for Backend or API-Test |
| ExecutionService.MixedRunNotBackendOnly | src/main/java/org/example/cucumber/service/TestExecutionService.java:123-127 | one tag that is neither Backend nor API-Test makes the run not back-end only, whatever other tags follow |
| ExecutionService.Finished | src/main/java/org/example/cucumber/service/TestExecutionService.java:112-139 | after the engine returns: end time, progress 100 and phase COMPLETED whatever the exit code; COMPLETED iff the exit code is 0, else FAILED with "Tests finished with exit code: N"; identity, environment, start time and metadata unchanged |
| ExecutionService.FinalUrls | src/main/java/org/example/cucumber/service/TestExecutionService.java:141-146 | the allure link is present iff the per-run report was produced; every earlier link is kept and nothing else is added |
| ExecutionService.FinishRecord | src/main/java/org/example/cucumber/service/TestExecutionService.java:112-146 | the step-by-step field updates of the worker give the finished record with the final links |
| ExecutionService.ActiveTests | src/main/java/org/example/cucumber/service/TestExecutionService.java:174-178 | exactly the QUEUED and RUNNING records, unchanged |
| ExecutionService.GetStatistics | src/main/java/org/example/cucumber/service/TestExecutionService.java:274-294 | the total counts the records of the environment (all records for null); each state count is at most the total; the maximum is 5 |
| ExecutionService.StatisticsPartition | src/main/java/org/example/cucumber/service/TestExecutionService.java:279-283 | completed + failed + running + queued + CANCELLED records = total, so CANCELLED runs are in no bucket |
| ExecutionService.RunningAtMostMax | src/main/java/org/example/cucumber/service/TestExecutionService.java:83-157 | under the store invariant, RUNNING records ≤ 5 − available permits, and the permits stay within 0..5 |
| ExecutionService.QueueKeeps | src/main/java/org/example/cucumber/service/TestExecutionService.java:57-67 | storing a fresh QUEUED record with its handle and waiting task keeps the store invariant |
| ExecutionService.AcquireKeeps | src/main/java/org/example/cucumber/service/TestExecutionService.java:84-96 | taking a permit and marking the record RUNNING keeps the invariant, one permit fewer |
| ExecutionService.InterruptKeeps | src/main/java/org/example/cucumber/service/TestExecutionService.java:86-90 | an interrupted wait that sets CANCELLED without releasing keeps the invariant |
| ExecutionService.FinishKeeps | src/main/java/org/example/cucumber/service/TestExecutionService.java:112-157 | a finished (non-active) record, the release in finally and the handle removal keep the invariant, one permit more |
| ExecutionService.FinishDeletedKeeps | src/main/java/org/example/cucumber/service/TestExecutionService.java:150-157 | when the record was deleted during the run, the release and handle removal alone keep the invariant |
| ExecutionService.CancelKeeps | src/main/java/org/example/cucumber/service/TestExecutionService.java:238-249 | cancelling a live handle keeps the invariant, whether the task was waiting or executing |
| ExecutionService.DeleteKeeps | src/main/java/org/example/cucumber/service/TestExecutionService.java:251-260 | removing a record that is not QUEUED or RUNNING keeps the invariant |
| ExecutionService.TestExecutionService.constructor | src/main/java/org/example/cucumber/service/TestExecutionService.java:31-47 | an empty store with 5 permits satisfies the invariant |
| ExecutionService.TestExecutionService.Queue | src/main/java/org/example/cucumber/service/TestExecutionService.java:49-81 | a QUEUED record under the new id, the handle and the submitted task with the tag expression and comma-joined features; response QUEUED with the tag expression and statusUrl "/api/v1/test/status/<id>"; permits unchanged; invariant kept |
| ExecutionService.TestExecutionService.Acquire | src/main/java/org/example/cucumber/service/TestExecutionService.java:84-96 | one permit taken; the record becomes RUNNING with start time and phase EXECUTING; invariant kept |
| ExecutionService.TestExecutionService.InterruptedAcquire | src/main/java/org/example/cucumber/service/TestExecutionService.java:84-91 | CANCELLED with "Interrupted while waiting in queue"; neither the permit nor the handle is given back |
| ExecutionService.TestExecutionService.EngineReturns | src/main/java/org/example/cucumber/service/TestExecutionService.java:109-157 | the run's directory is listed in the results root with the allure-results the engine left; a kept record is finished with the exit code's outcome and final links, the Allure link exactly when the engine left results and the report rendered, and executor.json is written into those results; the permit is released and the handle removed; a deleted record stays deleted and no executor.json is written |
| ExecutionService.WriteRunExecutor | src/main/java/org/example/cucumber/service/TestExecutionService.java:141 | the results root afterwards holds the run's directory with the engine's allure-results, executor.json added to them when the record is kept and they exist, and every other directory unchanged |
| ExecutionService.FinishRun | src/main/java/org/example/cucumber/service/TestExecutionService.java:112-157 | a kept record gets the exit code's outcome and its final links; a deleted one stays deleted; once the run leaves the running set and one permit comes back, the aggregate bookkeeping stays consistent |
| ExecutionService.TestExecutionService.EngineThrows | src/main/java/org/example/cucumber/service/TestExecutionService.java:150-157 | FAILED with the exception message (kept when it is null) and an end time; permit released, handle removed |
| ExecutionService.TestExecutionService.Cancel | src/main/java/org/example/cucumber/service/TestExecutionService.java:238-249 | only with a handle whose task is not done: CANCELLED, "Cancelled by user", end time, handle removed, the record returned; otherwise empty and nothing changes |
| ExecutionService.TestExecutionService.Delete | src/main/java/org/example/cucumber/service/TestExecutionService.java:251-272 | true iff the record exists and is neither QUEUED nor RUNNING; then the record and its results are removed, otherwise nothing changes |
| ReportMerge.RunManifest | src/main/java/org/example/cucumber/service/TestExecutionService.java:544-560 | buildName "Run <short>", buildOrder the write time, reportName "<buildName> [<env or unknown>] <tags joined ', '>" |
| ReportMerge.WriteExecutorJson | src/main/java/org/example/cucumber/service/TestExecutionService.java:539-566 | nothing without allure-results; otherwise executor.json is added or replaced and every other file is kept |
| ReportMerge.WithRunOutput | src/main/java/org/example/CucumberRunnerService.java:44-49 | the run's directory is in the listing and holds exactly the given allure-results, so it is a stored run exactly when the engine left them; every other directory and the history are unchanged |
| ReportMerge.RunOutputListed | src/main/java/org/example/cucumber/service/TestExecutionService.java:109-157 | a run whose engine left allure-results is among the runs `listAvailableRuns` discovers |
| ReportMerge.ReadTimestamp | src/main/java/org/example/cucumber/service/TestExecutionService.java:524-537 | the manifest's build order from executor.json; 0 when there is no executor.json or its build order is negative |
| ReportMerge.TimestampRoundTrip | src/main/java/org/example/cucumber/service/TestExecutionService.java:524-560 | reading back what writeExecutorJson wrote gives the write time |
| ReportMerge.TagsOfReportName | src/main/java/org/example/cucumber/service/TestExecutionService.java:509-516 | the trimmed text after the first "[...]" group; "" with no "[" |
| ReportMerge.ReadTags | src/main/java/org/example/cucumber/service/TestExecutionService.java:502-521 | "" without an executor.json; the result is always trimmed |
| ReportMerge.TagsOfWrittenName | src/main/java/org/example/cucumber/service/TestExecutionService.java:509-516 | for a name "<head> [<env>] <tags>" with no "[" in head and no "]" in env, the tags come back trimmed |
| ReportMerge.TagsRoundTrip | src/main/java/org/example/cucumber/service/TestExecutionService.java:502-560 | reading the tags back from what writeExecutorJson wrote gives the joined request tags, trimmed, whenever the environment text has no "]" |
| ReportMerge.ValidEnvironmentHasNoBracket | src/main/java/org/example/cucumber/model/TestExecutionRequest.java:27-33 | a valid environment has no "]", so the tag round trip holds for every valid request |
| ReportMerge.SuiteLabel | src/main/java/org/example/cucumber/service/TestExecutionService.java:449-451 | a non-empty date is followed by a space and comes first, the short id comes next, and non-empty tags come last after a space; the length is exactly that of these parts, so nothing else is in the label; with no date and no tags the label is the short id alone |
| ReportMerge.RunHistoryId | src/main/java/org/example/cucumber/service/TestExecutionService.java:474-477 | a non-empty history id becomes "<old>-<runId>"; an empty or missing one is unchanged |
| ReportMerge.RunHistoryIdsDistinct | src/main/java/org/example/cucumber/service/TestExecutionService.java:474-477 | two rewritten history ids are equal only for the same run and the same original id |
| ReportMerge.EnrichResult | src/main/java/org/example/cucumber/service/TestExecutionService.java:463-477 | the history id is made per-run; a labels array gets the parentSuite label and the "run-<short>" tag in front of the old labels |
| ReportMerge.RunTag | src/main/java/org/example/cucumber/service/TestExecutionService.java:466-467 | the run label is the "tag" label "run-" followed by the first 8 characters of the run id |
| ReportMerge.RunTagsDistinct | src/main/java/org/example/cucumber/service/TestExecutionService.java:466-467 | two runs share a run tag exactly when their ids share the first 8 characters |
| ReportMerge.CopyFile | src/main/java/org/example/cucumber/service/TestExecutionService.java:459-483 | a file that is not a "-result.json" record is copied unchanged; a result record gets the per-run history id and, when it has labels, exactly the parentSuite label and the run tag in front of its old labels |
| ReportMerge.StagingManifest | src/main/java/org/example/cucumber/service/TestExecutionService.java:490-499 | the staging executor.json has the suite label as build name, the staging build order, no report name and the run's report URL |
| ReportMerge.StagedBuildOrderRead | src/main/java/org/example/cucumber/service/TestExecutionService.java:490-499 | the build order written into a staging copy is the one `readTimestampFromExecutorJson` reads back |
| ReportMerge.EnrichedCopyContents | src/main/java/org/example/cucumber/service/TestExecutionService.java:434-500 | the staging copy has the source's files plus executor.json with the build order and suite label; result files are enriched, every other file is copied unchanged |
| ReportMerge.CopyFiles | src/main/java/org/example/cucumber/service/TestExecutionService.java:453-488 | the forEach over the source files gives each file's enriched or verbatim copy under the same name |
| ReportMerge.CopyAndEnrichResults | src/main/java/org/example/cucumber/service/TestExecutionService.java:434-500 | the method's target directory is the enriched copy |
| ReportMerge.Discover | src/main/java/org/example/cucumber/service/TestExecutionService.java:301-313 | an id is discovered iff a listed directory has allure-results and its name parses as that UUID |
| ReportMerge.ListAvailableRuns | src/main/java/org/example/cucumber/service/TestExecutionService.java:296-318 | the same iff, over the results base directory |
| ReportMerge.EffectiveRunIds | src/main/java/org/example/cucumber/service/TestExecutionService.java:321-323 | the requested ids, or every available run when none are requested |
| ReportMerge.ValidRunIds | src/main/java/org/example/cucumber/service/TestExecutionService.java:331-333 | exactly the ids with allure-results, never more than were given |
| ReportMerge.Entries | src/main/java/org/example/cucumber/service/TestExecutionService.java:348-350 | entry i is run i with the timestamp of its executor.json |
| ReportMerge.InsertByTime | src/main/java/org/example/cucumber/service/TestExecutionService.java:351 | inserting adds exactly one entry (as a multiset) |
| ReportMerge.InsertKeepsSorted | src/main/java/org/example/cucumber/service/TestExecutionService.java:351 | insertion into an ascending list keeps it ascending |
| ReportMerge.SortByTime | src/main/java/org/example/cucumber/service/TestExecutionService.java:348-352 | the result is ascending by timestamp and a permutation of the input |
| ReportMerge.InsertWithTime | src/main/java/org/example/cucumber/service/TestExecutionService.java:351 | insertion keeps the relative order of the entries of each timestamp |
| ReportMerge.SortIsStable | src/main/java/org/example/cucumber/service/TestExecutionService.java:351 | runs with equal timestamps keep their relative order |
| ReportMerge.Stage | src/main/java/org/example/cucumber/service/TestExecutionService.java:356-361 | every sorted run has a staging directory |
| ReportMerge.WithHistory | src/main/java/org/example/cucumber/service/TestExecutionService.java:363-365 | only the newest run's directory gets the previous history; nothing else changes, and nothing changes without a history |
| ReportMerge.RenderInputs | src/main/java/org/example/cucumber/service/TestExecutionService.java:369-372 | one directory per sorted run |
| ReportMerge.StagedRun | src/main/java/org/example/cucumber/service/TestExecutionService.java:356-361 | with distinct run ids, run i is staged from its own results with build order i + 1 and no history |
| ReportMerge.RenderInputsContents | src/main/java/org/example/cucumber/service/TestExecutionService.java:354-372 | the renderer gets the runs in sorted order, run i with build order i + 1, and the history only in the newest (last) directory |
| ReportMerge.StageRuns | src/main/java/org/example/cucumber/service/TestExecutionService.java:356-361 | the staging loop builds the staging directories |
| ReportMerge.CollectRendered | src/main/java/org/example/cucumber/service/TestExecutionService.java:369-371 | directory i is the staging directory of sorted run i |
| ReportMerge.StageSorted | src/main/java/org/example/cucumber/service/TestExecutionService.java:354-371 | the staging loop, the history copy and the collection in sorted order hand the renderer exactly the specified inputs |
| ReportMerge.GenerateCombinedAllureReport | src/main/java/org/example/cucumber/service/TestExecutionService.java:320-397 | empty with no valid run; otherwise the renderer receives the staged directories of the sorted runs, and the combined URL is returned iff index.html was produced |
| ExecutionRequest.EnvironmentValidIff | src/main/java/org/example/cucumber/model/TestExecutionRequest.java:27-33 | the environment constraints hold iff it is one of dev, staging, prod or performance |
| ExecutionRequest.Build | src/main/java/org/example/cucumber/model/TestExecutionRequest.java:41-92 | unset fields take the defaults 5, true, true, 2, 30 and "NORMAL", or null for the optional fields; values given to the builder win, for every one of the fourteen fields |
| ExecutionRequest.DefaultRequest | src/main/java/org/example/cucumber/model/TestExecutionRequest.java:27-92 | a request from an empty builder has every default and fails validation |
| CucumberRunner.NormalizeLabel | src/main/java/org/example/CucumberRunnerService.java:89-95 | IllegalArgumentException iff the label is null or blank; otherwise trimmed, starting with "@", and "@" is added only when missing |
| CucumberRunner.NormalizeLabelIdempotent | src/main/java/org/example/CucumberRunnerService.java:93-94 | normalising twice is normalising once |
| CucumberRunner.RunTags | src/main/java/org/example/CucumberRunnerService.java:29 | null or blank tags give no tags and no exception; other tags are normalised |
| CucumberRunner.CliArgs | src/main/java/org/example/CucumberRunnerService.java:57-79 | the fixed glue and plugin pairs first; "--tags t" iff the tags are non-blank; last the features when non-blank, else "classpath:features" |
| CucumberRunner.ExecuteRun | src/main/java/org/example/CucumberRunnerService.java:33-87 | the arguments handed to the engine are the argument list of the run's report directory; the result carries the run id, tags, the engine's exit code and the run directory; the context is cleared afterwards |
| CucumberRunner.BuildArgs | src/main/java/org/example/CucumberRunnerService.java:57-79 | adding the arguments one at a time yields the specified argument list |
| CucumberRunner.RunByLabel | src/main/java/org/example/CucumberRunnerService.java:17-26 | an empty label is refused before any run and the context is untouched; otherwise the run gets the normalised label |
| CucumberRunner.Run | src/main/java/org/example/CucumberRunnerService.java:28-31 | the run's tags are RunTags of the input, and the argument list follows from them |
| TestContext.ResolveBasePath | src/main/java/org/example/cucumber/context/TestContext.java:23-33 | TEST_RESULTS_PATH when non-blank, else test.results.path when non-blank, else "test-results" |
| TestContext.RunContext.constructor | src/main/java/org/example/cucumber/context/TestContext.java:15-16 | a fresh context is not initialized |
| TestContext.RunContext.Init | src/main/java/org/example/cucumber/context/TestContext.java:35-38 | the run id is the given id and the output base is basePath/id, replacing any earlier values |
| TestContext.RunContext.Clear | src/main/java/org/example/cucumber/context/TestContext.java:40-43 | both values are removed; the context is no longer initialized |
| TestContext.RunContext.GetRunId | src/main/java/org/example/cucumber/context/TestContext.java:45-51 | the run id when initialized, else IllegalStateException |
| TestContext.RunContext.GetOutputBase | src/main/java/org/example/cucumber/context/TestContext.java:53-59 | the output base (ending in the run id) iff initialized, else IllegalStateException |
| TestContext.RunContext.SubDir | src/main/java/org/example/cucumber/context/TestContext.java:65-79 | outputBase/name, which starts with the output base, iff initialized |
| TestContext.RunContext.GetScreenshotsDir | src/main/java/org/example/cucumber/context/TestContext.java:65-67 | outputBase/screenshots iff initialized |
| TestContext.RunContext.GetAxeResultDir | src/main/java/org/example/cucumber/context/TestContext.java:69-71 | outputBase/axe-result iff initialized |
| TestContext.RunContext.GetAllureResultsDir | src/main/java/org/example/cucumber/context/TestContext.java:73-75 | outputBase/allure-results iff initialized |
| TestContext.RunContext.GetCucumberReportsDir | src/main/java/org/example/cucumber/context/TestContext.java:77-79 | outputBase/cucumber-reports iff initialized |
| TestContext.RunContext.IsInitialized | src/main/java/org/example/cucumber/context/TestContext.java:61-63 | the context is initialised exactly when a run id is set, and then its output base is set too |
| Zephyr.ResolveProjectKey | src/main/java/org/example/integration/zephyr/ZephyrScaleService.java:99-104 | the request's key when non-blank, else the configured default |
| Zephyr.FolderOfTag | src/main/java/org/example/integration/zephyr/ZephyrScaleService.java:122-131 | a tag names no folder or exactly one of SmokeTest, Frontend or Backend, never Default |
| Zephyr.FirstFolder | src/main/java/org/example/integration/zephyr/ZephyrScaleService.java:121-133 | always a folder name; "Default" iff no tag names a folder |
| Zephyr.FirstFolderIsFirstMatch | src/main/java/org/example/integration/zephyr/ZephyrScaleService.java:121-133 | a non-default folder is the folder of the first tag that names one |
| Zephyr.ResolveFolderName | src/main/java/org/example/integration/zephyr/ZephyrScaleService.java:119-134 | "Default" for null tags, else the first deciding tag's folder |
| Zephyr.FindFolder | src/main/java/org/example/integration/zephyr/ZephyrScaleService.java:109-111 | a listed folder with exactly that name, or none when no listed folder has it |
| Zephyr.CycleName | src/main/java/org/example/integration/zephyr/ZephyrScaleService.java:137-140 | the name is trimmed, and trimming never reaches into the short id: it is the date part without leading space, then the short id, then, for non-blank tags, a space and the space-joined tags without trailing space |
| Zephyr.JiraSummary | src/main/java/org/example/integration/zephyr/ZephyrScaleService.java:204-206 | the summary is "Test Automation Failure: ", the short id, " [", the tags joined by ", ", and a closing "]" |
| Zephyr.JiraDescription | src/main/java/org/example/integration/zephyr/ZephyrScaleService.java:207-210 | the description is "Test run *<short id>* failed.", a blank line, the run's Allure report link, a blank line, then "Error: " and the message exactly when the status has one |
| Zephyr.JiraIssueFor | src/main/java/org/example/integration/zephyr/ZephyrScaleService.java:212-220 | the issue request carries the project key, the summary, the description, the configured issue type and the configured assignee |
| Zephyr.FirstKey | src/main/java/org/example/integration/zephyr/ZephyrScaleService.java:195-199 | none iff no tag starts with "@T-"; a key starts with "T-" |
| Zephyr.FirstKeyIsFirstMatch | src/main/java/org/example/integration/zephyr/ZephyrScaleService.java:195-199 | the key is the first "@T-" tag with its "@" removed |
| Zephyr.ExtractTestCaseKey | src/main/java/org/example/integration/zephyr/ZephyrScaleService.java:193-200 | none for null tags, else the first key |
| Zephyr.ElementExecution | src/main/java/org/example/integration/zephyr/ZephyrScaleService.java:176-183 | one execution iff the element has a test-case key; Pass iff its steps exist and all passed, else Fail |
| Zephyr.ElementsExecutions | src/main/java/org/example/integration/zephyr/ZephyrScaleService.java:175-184 | at most one execution per element, each keyed "T-…" with Pass or Fail |
| Zephyr.FeaturesExecutions | src/main/java/org/example/integration/zephyr/ZephyrScaleService.java:173-185 | every execution is keyed "T-…" with Pass or Fail |
| Zephyr.DetailedExecutions | src/main/java/org/example/integration/zephyr/ZephyrScaleService.java:168-191 | no executions for a missing or unreadable report |
| Zephyr.ParseElements | src/main/java/org/example/integration/zephyr/ZephyrScaleService.java:175-184 | the inner loop yields the elements' executions |
| Zephyr.ParseDetailedExecutions | src/main/java/org/example/integration/zephyr/ZephyrScaleService.java:168-191 | the nested loops yield the report's executions |
| Zephyr.BuildExecutions | src/main/java/org/example/integration/zephyr/ZephyrScaleService.java:153-166 | never empty: the detailed executions when there are any, else one keyed by the short id, Pass iff exit code 0, comment "Run: <id>" |
| Zephyr.TestCaseKeys | src/main/java/org/example/integration/zephyr/ZephyrScaleService.java:93-95 | the i-th key is the i-th execution's test-case key |
| Zephyr.AddMetadata | src/main/java/org/example/integration/zephyr/ZephyrScaleService.java:231-239 | nothing for a null status; otherwise the key is set, the map is created if absent, every other key and field is kept |
| Zephyr.StoreTicket | src/main/java/org/example/integration/zephyr/ZephyrScaleService.java:222-228 | the Jira key goes both into jiraTicketKey and into metadata["jiraTicket"]; nothing else changes |
| Zephyr.GetOrCreateFolder | src/main/java/org/example/integration/zephyr/ZephyrScaleService.java:106-117 | the folders are listed first; an existing folder of that name is reused without createFolder; otherwise one is created and a null folder gives no id; it throws exactly when the listing, or the creation of a missing folder, throws |
| Zephyr.UploadExecutions | src/main/java/org/example/integration/zephyr/ZephyrScaleService.java:88-96 | the cycle key is recorded, the executions uploaded, and their keys recorded unless the upload throws |
| Zephyr.CreateCycleAndUpload | src/main/java/org/example/integration/zephyr/ZephyrScaleService.java:82-96 | the cycle is created first with the name, project key and folder id; a null or thrown cycle key means no upload and an unchanged status; otherwise the run's executions are uploaded to that cycle, its key is recorded, and the executions' test-case keys are recorded unless the upload throws |
| Zephyr.UploadToZephyr | src/main/java/org/example/integration/zephyr/ZephyrScaleService.java:78-97 | it throws exactly under `ZephyrThrows`; when the folder step fails only the folder calls are made and the status is unchanged; otherwise the calls are exactly the folder calls, the cycle with the cycle name, project key and the found or created folder's id, and, when a cycle key comes back, the upload of the run's executions to that cycle; the cycle key and, unless the upload throws, the executions' test-case keys are recorded; no Jira call; only metadata changes |
| Zephyr.UploadRunResults | src/main/java/org/example/integration/zephyr/ZephyrScaleService.java:53-76 | no call when both integrations are off or there is no project key; a Jira ticket only when Jira is on and the exit code is not 0, and then exactly when the Zephyr upload did not throw (or Zephyr is off): it is the last call and its key is stored; only metadata and the ticket key are written; exceptions end the upload silently |
| Zephyr.CreateJiraTicket | src/main/java/org/example/integration/zephyr/ZephyrScaleService.java:202-229 | exactly one createIssue call; a returned key is stored, otherwise the status is unchanged; all other metadata and fields are kept |
| Zephyr.UploadWithKey | src/main/java/org/example/integration/zephyr/ZephyrScaleService.java:65-75 | the try block for a present key: the Zephyr upload first when on, then the ticket for a failed run unless the upload threw, with the ticket as the last call |
| Zephyr.ZephyrIfEnabled | src/main/java/org/example/integration/zephyr/ZephyrScaleService.java:66-68 | no call and no change when Zephyr is off; otherwise the upload starting with the folder listing, throwing exactly under `ZephyrThrows` |
| Zephyr.TicketIfFailed | src/main/java/org/example/integration/zephyr/ZephyrScaleService.java:70-72 | no call unless Jira is on, the exit code is not 0 and nothing threw; then one createIssue built from the record and the returned key stored |
| Zephyr.JiraIssueIgnoresIntegration | src/main/java/org/example/integration/zephyr/ZephyrScaleService.java:207-210 | the ticket reads only the error message of the record, so the Zephyr metadata written before it does not change the ticket |
| AxeReport.EscapeHtml | src/main/java/org/example/hooks/AxeReportHook.java:734-741 | "" for null; the output contains none of < > " ' |
| AxeReport.EscapeHtmlIsPerCharacter | src/main/java/org/example/hooks/AxeReportHook.java:736-740 | the replace chain equals escaping every character on its own |
| AxeReport.EntitiesAreEscapedAgain | src/main/java/org/example/hooks/AxeReportHook.java:736 | "&" goes first, so "&lt;" becomes "&amp;lt;" |
| AxeReport.Record | src/main/java/org/example/hooks/AxeReportHook.java:63-64 | afterwards the URL is recorded for the directory, nothing else is added, and a repeat changes nothing |
| AxeReport.EachUrlScannedOnce | src/main/java/org/example/hooks/AxeReportHook.java:56-67 | over any sequence of visits the scans are pairwise distinct, none repeats an earlier one, and every new visit is scanned |
| AxeReport.ScanRegistry.constructor | src/main/java/org/example/hooks/AxeReportHook.java:39 | the registry starts empty |
| AxeReport.ScanRegistry.RunAndSave | src/main/java/org/example/hooks/AxeReportHook.java:58-77 | the URL is recorded; a scan with base name "fileName_now" happens iff it was not recorded before |
| AxeReport.StripTimestamp | src/main/java/org/example/hooks/AxeReportHook.java:398 | drops "_digits" at the end and adds no character |
| AxeReport.RemoveLongNumbers | src/main/java/org/example/hooks/AxeReportHook.java:400 | removes digit runs of length ≥ 10 and adds no character |
| AxeReport.SplitCamelCase | src/main/java/org/example/hooks/AxeReportHook.java:402 | only spaces are added |
| AxeReport.CollapseSpaces | src/main/java/org/example/hooks/AxeReportHook.java:406 | only spaces are added |
| AxeReport.BeautifyTitle | src/main/java/org/example/hooks/AxeReportHook.java:396-414 | the title is never empty, is trimmed and has no underscore |
| AxeReport.JsonNames | src/main/java/org/example/hooks/AxeReportHook.java:341 | exactly the listed names ending in ".json" |
| AxeReport.SortNames | src/main/java/org/example/hooks/AxeReportHook.java:342 | sorted in String.compareTo order and a permutation |
| AxeReport.JsonFiles | src/main/java/org/example/hooks/AxeReportHook.java:340-343 | the directory's JSON files, sorted by name |
| AxeReport.ImpactCount | src/main/java/org/example/hooks/AxeReportHook.java:363-370 | a level's count is at most the violation count |
| AxeReport.ImpactCountsBounded | src/main/java/org/example/hooks/AxeReportHook.java:358-372 | critical + serious + moderate + minor ≤ violations; unknown impacts count in none |
| AxeReport.Summary | src/main/java/org/example/hooks/AxeReportHook.java:348-378 | a scan's impact counts never exceed its violations |
| AxeReport.FileSummary | src/main/java/org/example/hooks/AxeReportHook.java:345-383 | an unreadable file gives no summary; a summary's counts are bounded |
| AxeReport.SummariesConsistent | src/main/java/org/example/hooks/AxeReportHook.java:345-384 | every collected summary is bounded the same way |
| AxeReport.HtmlFileOnlyWhenPresent | src/main/java/org/example/hooks/AxeReportHook.java:374-378 | htmlFile is set only when a listed ".html" page of the same name exists |
| AxeReport.CountImpacts | src/main/java/org/example/hooks/AxeReportHook.java:361-372 | the counting loop gives each level's count |
| AxeReport.SummarizeFile | src/main/java/org/example/hooks/AxeReportHook.java:345-383 | the loop body gives the file's summary |
| AxeReport.CollectScans | src/main/java/org/example/hooks/AxeReportHook.java:336-390 | one summary per readable JSON file, in file-name order |
| AxeReport.SumTotals | src/main/java/org/example/hooks/AxeReportHook.java:108-113 | the totals of no scans are all zero |
| AxeReport.TotalsBounded | src/main/java/org/example/hooks/AxeReportHook.java:108-113 | the summed impact totals never exceed the summed violations |
| AxeReport.IndexTotalsBounded | src/main/java/org/example/hooks/AxeReportHook.java:105-113 | the overview of any directory has bounded totals |
| AxeReport.ScanBadge | src/main/java/org/example/hooks/AxeReportHook.java:295-299 | success/"Bestanden" iff 0 violations; danger/"Kritisch" iff violations and a critical one; warning/"Auffällig" otherwise |
| ConfigReader.EnvKey | src/main/java/org/example/utils/ConfigReader.java:36 | the environment name has no "." and no lower-case letter |
| ConfigReader.FirstPresent | src/main/java/org/example/utils/ConfigReader.java:34-48 | the result is the default or one of the present candidates |
| ConfigReader.Get | src/main/java/org/example/utils/ConfigReader.java:34-48 | the first present of env (upper-cased, "." to "_"), system property (key as is), .env (upper-cased), properties, then the default |
| ConfigReader.SystemPropertyOverridesFiles | src/main/java/org/example/utils/ConfigReader.java:40-41 | with no env var, a system property wins over .env and the properties file |
| ConfigReader.AbsentKeyYieldsDefault | src/main/java/org/example/utils/ConfigReader.java:48 | a key in no source returns the default unchanged, null included |
| ConfigReader.GetComesFromASource | src/main/java/org/example/utils/ConfigReader.java:34-48 | the result is the default or a value stored under the key or its environment name |
| TestConfigReader.Get | src/test/java/org/example/utils/ConfigReader.java:26-37 | env var, then system property (untransformed key), then properties, then the default |
| TestConfigReader.SameAsMainWithoutDotenv | src/test/java/org/example/utils/ConfigReader.java:26-37 | the test copy is the main chain with an empty .env file |
| ApiSteps.SingleLine | src/main/java/org/example/steps/ApiSteps.java:179 | the result has no "\n" and no "\r" |
| ApiSteps.Kurz | src/main/java/org/example/steps/ApiSteps.java:177-181 | "null" for null; for maxLen ≥ 1 at most maxLen characters; short text unchanged, long text cut to maxLen − 1 characters plus "…"; substring's exception iff maxLen < 1 and the text is too long |
| ApiSteps.KurzDefault | src/main/java/org/example/steps/ApiSteps.java:173-175 | kurz(w) is kurz(w, 40) and is at most 40 characters |
| ApiSteps.Mark | src/main/java/org/example/steps/ApiSteps.java:159-164 | "✓" iff the XML and API values are equal, else "✗ FEHLER" |
| ApiSteps.PadRight | src/main/java/org/example/steps/ApiSteps.java:160 | %-Ns keeps the text as prefix and pads it with spaces to exactly max(n, length) characters |
| ApiSteps.Dashes | src/main/java/org/example/steps/ApiSteps.java:157 | n dashes |
| ApiSteps.RowMarksEquality | src/main/java/org/example/steps/ApiSteps.java:158-164 | a row ends with "✓" iff its two values are equal |
| ApiSteps.Vergleichstabelle | src/main/java/org/example/steps/ApiSteps.java:153-167 | the table is the header and dash line followed by one row per entry in order |
| ApiSteps.AppendRows | src/main/java/org/example/steps/ApiSteps.java:158-165 | appending one formatted row per entry, in order, gives the rows of all entries |
| ApiSteps.Line | src/main/java/org/example/steps/ApiSteps.java:155-156 | the length is the first three columns padded to at least 10, 55 and 55 characters, the fourth column, three separators of a space, a vertical bar and a space, and a newline; the line starts with the first column, then the first separator and the second column, and ends with the last separator, the fourth column and a newline |
| ApiSteps.Header | src/main/java/org/example/steps/ApiSteps.java:155-157 | the header is the 133-character title line and then 135 dashes and a newline |
| ApiSteps.Row | src/main/java/org/example/steps/ApiSteps.java:158-164 | a row starts with the field name, ends with the last separator and the mark, and has fixed-width value columns because the values are cut to 55 characters |
| ApiSteps.Rows | src/main/java/org/example/steps/ApiSteps.java:158-165 | the rows are empty exactly for no entries and otherwise end with a newline |
| ApiSteps.RowsAppend | src/main/java/org/example/steps/ApiSteps.java:158-165 | the rows of two runs of entries are the rows of the first run followed by the rows of the second |
| BasePage.Normalize | src/main/java/org/example/pages/BasePage.java:16 | "chromium" for null; the name is trimmed and lower-case |
| BasePage.SelectBrowser | src/main/java/org/example/pages/BasePage.java:16-26 | chromium for null; firefox, chromium/chrome, webkit exactly for those normalised names; any other name is IllegalArgumentException |
| BasePage.NormalizeIdempotent | src/main/java/org/example/pages/BasePage.java:16 | normalising twice is normalising once |
| BasePage.SelectionIgnoresCaseAndSpace | src/main/java/org/example/pages/BasePage.java:16-21 | a name selects what its normalised form selects |
| BasePage.ExecutablePath | src/main/java/org/example/pages/BasePage.java:32-38 | CHROME_EXECUTABLE_PATH when set, even if blank; otherwise the system property; applied only when non-blank |
| BasePage.Options | src/main/java/org/example/pages/BasePage.java:28-38 | always headless, with the chosen executable path |
| BasePage.PageObject.constructor | src/main/java/org/example/pages/BasePage.java:12-13 | no browser and no page yet |
| BasePage.PageObject.CreatePlaywrightPageInstance | src/main/java/org/example/pages/BasePage.java:15-43 | an unsupported name throws with no field changed; otherwise the browser is launched with those options and its new page is kept and returned |
| TestBasePage.SelectBrowser | src/test/java/org/example/pages/BasePage.java:15-23 | only "Firefox", "Chromium" and "Webkit" select a browser; null fails; anything else is IllegalArgumentException |
| TestBasePage.LowerCaseRefused | src/test/java/org/example/pages/BasePage.java:15-23 | "firefox" is refused by the test copy but accepted by the main copy |
| TestBasePage.PageObject.constructor | src/test/java/org/example/pages/BasePage.java:11-12 | no browser and no page yet |
| TestBasePage.PageObject.CreatePlaywrightPageInstance | src/test/java/org/example/pages/BasePage.java:14-28 | an unsupported name throws with no field changed; otherwise a headless browser and its page are kept and returned |

The `Text` module's members (`Trim`, `ToLower`, `ReplaceChar`, `Join`, …) state the behaviour of the Java string methods the code calls. They are support, not part of the source, and have no rows.

## Left out

- Concurrency: the thread pool, `Future.cancel(true)` interrupts and blocking on the semaphore are discrete sequential events. Races between a cancel and a running worker are not modelled.
- A cancel that interrupts a task blocked in `acquire` is modelled as the task ending then. In the source the interrupted worker also writes "Interrupted while waiting in queue" over the cancel message.
- `ExecutionService.TestExecutionService.Cancel`: the task of a cancelled executing run keeps going until its own engine event. The interrupt this sends to the engine is not modelled.
- `ExecutionService.TestExecutionService.EngineThrows`: the directories the runner created before the engine threw are not added to the results root, so such a run is not one of the stored runs in the model.
- An engine run that outlives its deleted record. The source throws a NullPointerException inside its catch block. The model keeps only what the `finally` block does: release the permit and remove the handle.
- The duration text and the `successRate` doubles are floating point and text formatting, and are left out.
- `System.setProperty` calls in `executeTest` and `executeRun` change global state and are left out.
- The Allure `ReportGenerator`, `generateAllureReport`, `getReportUrl`, `getTestReport`, `copyHistory`'s file I/O and `deleteDirectory` are left out. Directories are maps, and the renderer is reduced to whether it produced `index.html`. The staging directory exists only inside the merge method, so its deletion has no counterpart.
- `deleteTestExecution` removes the run's directory from the results map. The listing of the base directory keeps the name, which is harmless because discovery also requires the directory.
- Result-file editing: the regular-expression edits of the JSON text are modelled on structured records. The model therefore omits the following effects:
  - a `$` or `\` in the suite label, which breaks the replacement;
  - a `"` in a value;
  - a result file that is not JSON;
  - the trailing comma produced when a result's labels array is empty.
- `ReportMerge.ReadTimestamp`: reads any non-negative build order. `Long.parseLong` rejects values above 9223372036854775807 (`Long.MAX_VALUE`), which includes some 19-digit values, with a `NumberFormatException`. That exception is not an `IOException`, so neither the catch at TestExecutionService.java:533 nor the one at :384 stops it, and `generateCombinedAllureReport` throws instead of returning an empty result. `ReportMerge.GenerateCombinedAllureReport` does not capture that exception. The service itself writes the clock's millisecond value, which is far below the limit.
- `ReportMerge.TagsRoundTrip` assumes the environment text contains no `]`. Validation guarantees this, as `ValidEnvironmentHasNoBracket` shows.
- Per-file IOExceptions while copying, reading or writing are left out.
- `RunIds.ParseUuid` accepts only the canonical 8-4-4-4-12 layout. `UUID.fromString` also accepts shorter groups.
- Case-insensitive comparisons and upper/lower-casing are modelled for ASCII letters only.
- Java strings are sequences of UTF-16 code units, while a Dafny `char` is a Unicode scalar value. For characters outside the Basic Multilingual Plane this changes `length()` in `kurz` (`ApiSteps.Kurz`), the `%-Ns` padding (`ApiSteps.PadRight`) and the `compareTo` order of file names (`AxeReport.NameLessEq`); the model counts and compares scalar values.
- The Zephyr and Jira HTTP clients, Base64 authentication and the REST controllers are left out. A null cycle or issue together with a null key is treated as no key.
- `TestStatus` is a value. The Zephyr service's updates therefore come back as a result rather than through the aliased object.
- The Playwright, axe-core, PDF and XML steps, the screenshot hooks, the runner classes and the HTML templates of the accessibility report are left out.
- Static loading of `config.properties` and `.env` is I/O and is left out; the sources are maps.
- `TestContext`'s `InheritableThreadLocal` inheritance by child threads is left out; the context is one explicit object.
