/**
 * The upload of a finished run to Zephyr Scale and Jira: which folder and cycle are used,
 * which executions are reported, when a Jira ticket is opened, and what is written back
 * into the run's status record. The HTTP clients are replaced by a script of their replies,
 * and the calls the service makes are returned as a trace.
 */
module Zephyr {
  import opened Wrappers
  import Text
  import RunIds
  import RunStatus
  import ExecutionRequest

  const FOLDER_TYPE := "TEST_RUN"
  const DEFAULT_FOLDER := "Default"
  const PASS := "Pass"
  const FAIL := "Fail"
  const CYCLE_KEY := "zephyrCycleKey"
  const EXECUTIONS_KEY := "zephyrExecutions"
  const JIRA_KEY := "jiraTicket"

  /** The service's settings (zephyr.enabled, zephyr.default-project-key, jira.*). */
  datatype Config = Config(
    zephyrEnabled: bool,
    defaultProjectKey: Option<string>,
    jiraEnabled: bool,
    assigneeAccountId: string,
    issueType: string)

  datatype Folder = Folder(id: Option<int>, name: Option<string>)

  datatype CycleBody = CycleBody(name: string, projectKey: string, folderId: Option<int>)

  datatype Execution = Execution(testCaseKey: string, statusName: string, comment: Option<string>)

  datatype JiraIssue = JiraIssue(projectKey: string, summary: string, description: string,
                                 issueType: string, assignee: string)

  lemma MetadataKeysDistinct()
    ensures CYCLE_KEY != EXECUTIONS_KEY && CYCLE_KEY != JIRA_KEY && EXECUTIONS_KEY != JIRA_KEY
  {
    assert CYCLE_KEY[6] != EXECUTIONS_KEY[6];
    assert CYCLE_KEY[0] != JIRA_KEY[0];
    assert EXECUTIONS_KEY[0] != JIRA_KEY[0];
  }

  /** The client calls, in the order the service makes them. */
  datatype Call =
    | GetFolders(projectKey: string, folderType: string)
    | CreateFolder(folderName: string, projectKey: string, folderType: string)
    | CreateTestCycle(body: CycleBody)
    | UploadTestResults(cycleKey: string, executions: seq<Execution>)
    | CreateIssue(issue: JiraIssue)

  /** What a client call gives back: a value, or an exception. */
  datatype Reply<T> = Returns(value: T) | Throws

  /**
   * The replies of the clients for one upload: the folder list, the created folder (null
   * possible), the created cycle's key (null when the cycle or its key is null), whether the
   * result upload throws, and the created issue's key (null when no issue came back).
   */
  datatype Replies = Replies(
    folders: Reply<seq<Folder>>,
    createdFolder: Reply<Option<Folder>>,
    cycleKey: Reply<Option<string>>,
    uploadThrows: bool,
    issueKey: Reply<Option<string>>)

  // ---------------------------------------------------------------- project key and folder

  /** resolveProjectKey: the request's key when it is not blank, else the configured default. */
  function ResolveProjectKey(request: ExecutionRequest.TestExecutionRequest, config: Config): (r: Option<string>)
    ensures request.projectKey.Some? && !Text.IsBlank(request.projectKey.value) ==> r == request.projectKey
    ensures request.projectKey.None? || Text.IsBlank(request.projectKey.value) ==> r == config.defaultProjectKey
  {
    if request.projectKey.Some? && !Text.IsBlank(request.projectKey.value) then request.projectKey
    else config.defaultProjectKey
  }

  const SMOKE_FOLDER := "SmokeTest"
  const FRONTEND_FOLDER := "Frontend"
  const BACKEND_FOLDER := "Backend"

  /** The four folders a run can be filed under. */
  predicate IsFolderName(name: string) {
    name == SMOKE_FOLDER || name == FRONTEND_FOLDER || name == BACKEND_FOLDER || name == DEFAULT_FOLDER
  }

  /** The folder one tag asks for, if any: the tag without a leading "@", compared ignoring case. */
  function FolderOfTag(tag: string): (r: Option<string>)
    ensures r.Some? ==> IsFolderName(r.value) && r.value != DEFAULT_FOLDER
  {
    var name := if Text.StartsWith(tag, "@") then tag[1..] else tag;
    if Text.EqualsIgnoreCase(SMOKE_FOLDER, name) || Text.EqualsIgnoreCase("smoke", name) then Some(SMOKE_FOLDER)
    else if Text.EqualsIgnoreCase(FRONTEND_FOLDER, name) then Some(FRONTEND_FOLDER)
    else if Text.EqualsIgnoreCase(BACKEND_FOLDER, name) then Some(BACKEND_FOLDER)
    else None
  }

  /** The folder of the first tag that names one, else "Default". */
  function FirstFolder(tags: seq<string>): (r: string)
    ensures IsFolderName(r)
    ensures r == DEFAULT_FOLDER <==> forall i :: 0 <= i < |tags| ==> FolderOfTag(tags[i]).None?
  {
    if tags == [] then DEFAULT_FOLDER
    else if FolderOfTag(tags[0]).Some? then FolderOfTag(tags[0]).value
    else
      assert forall i :: 1 <= i < |tags| ==> tags[i] == tags[1..][i - 1];
      FirstFolder(tags[1..])
  }

  /** The folder chosen is the one of the first tag that names a folder. */
  lemma {:induction false} FirstFolderIsFirstMatch(tags: seq<string>)
    requires FirstFolder(tags) != DEFAULT_FOLDER
    ensures exists i :: 0 <= i < |tags| && FolderOfTag(tags[i]) == Some(FirstFolder(tags)) &&
                        forall j :: 0 <= j < i ==> FolderOfTag(tags[j]).None?
  {
    if FolderOfTag(tags[0]).Some? {
      assert FolderOfTag(tags[0]) == Some(FirstFolder(tags));
    } else {
      var rest := tags[1..];
      FirstFolderIsFirstMatch(rest);
      var k :| 0 <= k < |rest| && FolderOfTag(rest[k]) == Some(FirstFolder(rest)) &&
               forall j :: 0 <= j < k ==> FolderOfTag(rest[j]).None?;
      assert FolderOfTag(tags[k + 1]) == Some(FirstFolder(tags));
      assert forall j :: 0 < j < k + 1 ==> tags[j] == rest[j - 1];
    }
  }

  /** resolveFolderName: "Default" for null tags, else the folder of the first deciding tag. */
  function ResolveFolderName(tags: Option<seq<string>>): (r: string)
    ensures tags.None? ==> r == DEFAULT_FOLDER
    ensures tags.Some? ==> r == FirstFolder(tags.value)
    ensures IsFolderName(r)
  {
    if tags.None? then DEFAULT_FOLDER else FirstFolder(tags.value)
  }

  /** The first listed folder with exactly that name. */
  function FindFolder(folders: seq<Folder>, name: string): (r: Option<Folder>)
    ensures r.Some? ==> r.value in folders && r.value.name == Some(name)
    ensures r.None? ==> forall f :: f in folders ==> f.name != Some(name)
  {
    if folders == [] then None
    else if folders[0].name == Some(name) then Some(folders[0])
    else
      assert forall f :: f in folders ==> f == folders[0] || f in folders[1..];
      FindFolder(folders[1..], name)
  }

  // ---------------------------------------------------------------- cycle and Jira texts

  function TagsText(tags: Option<seq<string>>, sep: string): string {
    if tags.Some? then Text.Join(tags.value, sep) else ""
  }

  /**
   * The cycle name: date, short run id, then the tags joined by spaces when they are not
   * blank, trimmed. The short id has no character trim removes, so trimming only touches the
   * date in front and the tags behind it.
   */
  function CycleName(date: string, runId: RunIds.Uuid, tags: Option<seq<string>>): (r: string)
    ensures Text.IsTrimmed(r)
    ensures Text.IsBlank(TagsText(tags, " ")) ==> r == Text.Trim(date + " " + RunIds.Short(runId))
    ensures Text.IsBlank(TagsText(tags, " ")) ==> r == Text.TrimStart(date + " ") + RunIds.Short(runId)
    ensures !Text.IsBlank(TagsText(tags, " ")) ==>
              r == Text.TrimStart(date + " ") + RunIds.Short(runId) + Text.TrimEnd(" " + TagsText(tags, " "))
    ensures !Text.IsBlank(TagsText(tags, " ")) && Text.TrimEnd(TagsText(tags, " ")) != [] ==>
              Text.EndsWith(r, RunIds.Short(runId) + " " + Text.TrimEnd(TagsText(tags, " ")))
  {
    var text := TagsText(tags, " ");
    var short := RunIds.Short(runId);
    var tail := if Text.IsBlank(text) then "" else " " + text;
    var r := Text.Trim(date + " " + short + tail);
    Text.TrimAround(date + " ", short, tail);
    assert tail == "" ==> date + " " + short + tail == date + " " + short;
    assert tail == "" ==> Text.TrimStart(date + " ") + short + Text.TrimEnd(tail) == Text.TrimStart(date + " ") + short;
    if !Text.IsBlank(text) && Text.TrimEnd(text) != [] then
      CycleNameEnd(Text.TrimStart(date + " "), short, text);
      r
    else
      r
  }

  /** With tags that do not trim away, the name ends with the short id, a space and the trimmed tags. */
  lemma CycleNameEnd(front: string, short: string, text: string)
    requires Text.TrimEnd(text) != []
    ensures Text.EndsWith(front + short + Text.TrimEnd(" " + text), short + " " + Text.TrimEnd(text))
  {
    Text.TrimEndPrefix(" ", text);
    var e := short + " " + Text.TrimEnd(text);
    var r := front + short + Text.TrimEnd(" " + text);
    assert r == front + e;
    assert r[|r| - |e|..] == e;
  }

  /** The Jira summary: the fixed prefix, the short run id, and the tags joined by ", " in brackets. */
  function JiraSummary(runId: RunIds.Uuid, tags: Option<seq<string>>): (r: string)
    ensures Text.StartsWith(r, "Test Automation Failure: ")
    ensures var p := |"Test Automation Failure: "|;
            |r| == p + 11 + |TagsText(tags, ", ")| &&
            r[p..p + 8] == RunIds.Short(runId) && r[p + 8..p + 10] == " [" &&
            r[p + 10..|r| - 1] == TagsText(tags, ", ") && Text.EndsWith(r, "]")
  {
    var prefix := "Test Automation Failure: ";
    var r := prefix + RunIds.Short(runId) + " [" + TagsText(tags, ", ") + "]";
    assert r[..|prefix|] == prefix;
    r
  }

  /**
   * The issue text: the short run id, a blank line, the run's Allure report link, a blank line,
   * then the status's error message when there is one.
   */
  function JiraDescription(runId: RunIds.Uuid, status: Option<RunStatus.TestStatus>): (r: string)
    ensures var head := "Test run *" + RunIds.Short(runId) + "* failed.\n\n";
            var link := "Allure Report: /reports/" + runId + "/allure-report/index.html\n\n";
            |head| == 29 && |r| >= 29 + |link| && r[..29] == head && r[29..29 + |link|] == link &&
            (status.Some? && status.value.errorMessage.Some? ==>
               r[29 + |link|..] == "Error: " + status.value.errorMessage.value) &&
            (status.None? || status.value.errorMessage.None? ==> |r| == 29 + |link|)
  {
    var head := "Test run *" + RunIds.Short(runId) + "* failed.\n\n";
    var link := "Allure Report: /reports/" + runId + "/allure-report/index.html\n\n";
    var error := if status.Some? && status.value.errorMessage.Some? then "Error: " + status.value.errorMessage.value else "";
    var r := head + link + error;
    assert r[..|head|] == head && r[|head|..|head| + |link|] == link && r[|head| + |link|..] == error;
    r
  }

  /** The fields of the issue request: project key, summary, description, issue type and assignee. */
  function JiraIssueFor(config: Config, runId: RunIds.Uuid, request: ExecutionRequest.TestExecutionRequest,
                        projectKey: string, status: Option<RunStatus.TestStatus>): (r: JiraIssue)
    ensures r.projectKey == projectKey && r.issueType == config.issueType && r.assignee == config.assigneeAccountId
    ensures r.summary == JiraSummary(runId, request.tags) && r.description == JiraDescription(runId, status)
  {
    JiraIssue(projectKey, JiraSummary(runId, request.tags), JiraDescription(runId, status),
              config.issueType, config.assigneeAccountId)
  }

  // ---------------------------------------------------------------- Cucumber JSON

  datatype Tag = Tag(name: Option<string>)
  datatype StepResult = StepResult(status: Option<string>)
  datatype Step = Step(result: Option<StepResult>)
  datatype Element = Element(tags: Option<seq<Tag>>, steps: Option<seq<Step>>)
  datatype Feature = Feature(elements: Option<seq<Element>>)

  /** The run's Cucumber.json: absent, unreadable, or its features. */
  datatype CucumberReport = Missing | Unreadable | Parsed(features: seq<Feature>)

  predicate IsKeyTag(t: Tag) {
    t.name.Some? && Text.StartsWith(t.name.value, "@T-")
  }

  function FirstKey(tags: seq<Tag>): (r: Option<string>)
    ensures r.None? <==> forall i :: 0 <= i < |tags| ==> !IsKeyTag(tags[i])
    ensures r.Some? ==> Text.StartsWith(r.value, "T-")
  {
    if tags == [] then None
    else if IsKeyTag(tags[0]) then
      var n := tags[0].name.value;
      assert n[..3] == "@T-";
      assert n[1..][..2] == n[1..3];
      Some(n[1..])
    else
      assert forall i :: 1 <= i < |tags| ==> tags[i] == tags[1..][i - 1];
      FirstKey(tags[1..])
  }

  /** The key found is the one of the first "@T-" tag. */
  lemma {:induction false} FirstKeyIsFirstMatch(tags: seq<Tag>)
    requires FirstKey(tags).Some?
    ensures exists i :: 0 <= i < |tags| && IsKeyTag(tags[i]) && FirstKey(tags).value == tags[i].name.value[1..] &&
                        forall j :: 0 <= j < i ==> !IsKeyTag(tags[j])
  {
    if IsKeyTag(tags[0]) {
      assert FirstKey(tags).value == tags[0].name.value[1..];
    } else {
      var rest := tags[1..];
      FirstKeyIsFirstMatch(rest);
      var k :| 0 <= k < |rest| && IsKeyTag(rest[k]) && FirstKey(rest).value == rest[k].name.value[1..] &&
               forall j :: 0 <= j < k ==> !IsKeyTag(rest[j]);
      assert IsKeyTag(tags[k + 1]);
      assert forall j :: 0 < j < k + 1 ==> tags[j] == rest[j - 1];
    }
  }

  /** extractTestCaseKey: the first tag starting with "@T-", without its "@". */
  function ExtractTestCaseKey(tags: Option<seq<Tag>>): (r: Option<string>)
    ensures tags.None? ==> r.None?
    ensures tags.Some? ==> r == FirstKey(tags.value)
    ensures r.Some? ==> Text.StartsWith(r.value, "T-")
  {
    if tags.None? then None else FirstKey(tags.value)
  }

  /** An element passed when it has steps and every step has the result status "passed". */
  predicate AllPassed(steps: Option<seq<Step>>) {
    steps.Some? &&
    forall i :: 0 <= i < |steps.value| ==>
      steps.value[i].result.Some? && steps.value[i].result.value.status == Some("passed")
  }

  /** The execution one element reports: none without a test-case key. */
  function ElementExecution(e: Element): (r: seq<Execution>)
    ensures |r| <= 1
    ensures |r| == 1 <==> ExtractTestCaseKey(e.tags).Some?
    ensures |r| == 1 ==> r[0].testCaseKey == ExtractTestCaseKey(e.tags).value
    ensures |r| == 1 ==> (r[0].statusName == PASS <==> AllPassed(e.steps))
    ensures |r| == 1 ==> r[0].statusName in {PASS, FAIL}
  {
    var key := ExtractTestCaseKey(e.tags);
    if key.None? then [] else [Execution(key.value, if AllPassed(e.steps) then PASS else FAIL, None)]
  }

  function ElementsExecutions(es: seq<Element>): (r: seq<Execution>)
    ensures |r| <= |es|
    ensures forall x :: x in r ==> Text.StartsWith(x.testCaseKey, "T-") && x.statusName in {PASS, FAIL}
  {
    if es == [] then [] else ElementsExecutions(es[..|es| - 1]) + ElementExecution(es[|es| - 1])
  }

  function FeatureExecutions(f: Feature): seq<Execution> {
    if f.elements.None? then [] else ElementsExecutions(f.elements.value)
  }

  function FeaturesExecutions(fs: seq<Feature>): (r: seq<Execution>)
    ensures forall x :: x in r ==> Text.StartsWith(x.testCaseKey, "T-") && x.statusName in {PASS, FAIL}
  {
    if fs == [] then [] else FeaturesExecutions(fs[..|fs| - 1]) + FeatureExecutions(fs[|fs| - 1])
  }

  /** The executions read from the report: none when it is missing or cannot be read. */
  function DetailedExecutions(report: CucumberReport): (r: seq<Execution>)
    ensures !report.Parsed? ==> r == []
  {
    if report.Parsed? then FeaturesExecutions(report.features) else []
  }

  /** The inner loop of parseDetailedExecutions, over the elements of one feature. */
  method ParseElements(es: seq<Element>) returns (executions: seq<Execution>)
    ensures executions == ElementsExecutions(es)
  {
    executions := [];
    var j := 0;
    while j < |es|
      invariant 0 <= j <= |es|
      invariant executions == ElementsExecutions(es[..j])
    {
      assert es[..j + 1][..j] == es[..j];
      var key := ExtractTestCaseKey(es[j].tags);
      if key.Some? {
        var passed := AllPassed(es[j].steps);
        executions := executions + [Execution(key.value, if passed then PASS else FAIL, None)];
      }
      j := j + 1;
    }
    assert es[..j] == es;
  }

  /** parseDetailedExecutions: the loops over the features and their elements. */
  method ParseDetailedExecutions(report: CucumberReport) returns (executions: seq<Execution>)
    ensures executions == DetailedExecutions(report)
  {
    if !report.Parsed? {
      return [];
    }
    var features := report.features;
    executions := [];
    var i := 0;
    while i < |features|
      invariant 0 <= i <= |features|
      invariant executions == FeaturesExecutions(features[..i])
    {
      assert features[..i + 1][..i] == features[..i];
      var elements := features[i].elements;
      if elements.Some? {
        var more := ParseElements(elements.value);
        executions := executions + more;
      }
      i := i + 1;
    }
    assert features[..i] == features;
  }

  /**
   * buildExecutions: the detailed executions when there are any; otherwise one execution
   * for the whole run, keyed by the short run id, Pass exactly when the exit code is 0.
   */
  function BuildExecutions(runId: RunIds.Uuid, exitCode: int, report: CucumberReport): (r: seq<Execution>)
    ensures r != []
    ensures DetailedExecutions(report) != [] ==> r == DetailedExecutions(report)
    ensures DetailedExecutions(report) == [] ==>
              r == [Execution(RunIds.Short(runId), if exitCode == 0 then PASS else FAIL, Some("Run: " + runId))]
  {
    var detailed := DetailedExecutions(report);
    if detailed != [] then detailed
    else [Execution(RunIds.Short(runId), if exitCode == 0 then PASS else FAIL, Some("Run: " + runId))]
  }

  function TestCaseKeys(executions: seq<Execution>): (r: seq<string>)
    ensures |r| == |executions| && forall i :: 0 <= i < |r| ==> r[i] == executions[i].testCaseKey
  {
    if executions == [] then [] else [executions[0].testCaseKey] + TestCaseKeys(executions[1..])
  }

  // ---------------------------------------------------------------- status write-back

  /** addMetadata: nothing for a null status; otherwise the key is set, creating the map if needed. */
  function AddMetadata(status: Option<RunStatus.TestStatus>, key: string, value: RunStatus.MetaValue)
    : (r: Option<RunStatus.TestStatus>)
    ensures status.None? ==> r.None?
    ensures status.Some? ==> r.Some? && r.value.metadata.Some? && key in r.value.metadata.value &&
                             r.value.metadata.value[key] == value
    ensures status.Some? && status.value.metadata.Some? ==>
              forall k :: k in status.value.metadata.value && k != key ==>
                k in r.value.metadata.value && r.value.metadata.value[k] == status.value.metadata.value[k]
    ensures status.Some? && status.value.metadata.None? ==> r.value.metadata.value.Keys == {key}
    ensures status.Some? ==> r.value.(metadata := status.value.metadata) == status.value
  {
    match status
    case None => None
    case Some(s) =>
      var m := if s.metadata.Some? then s.metadata.value else map[];
      Some(s.(metadata := Some(m[key := value])))
  }

  /** createJiraTicket's write-back: the key goes to jiraTicketKey and to metadata["jiraTicket"]. */
  function StoreTicket(status: Option<RunStatus.TestStatus>, key: string): (r: Option<RunStatus.TestStatus>)
    ensures status.None? ==> r.None?
    ensures status.Some? ==> r.Some? && r.value.jiraTicketKey == Some(key) &&
                             r.value.metadata.Some? && JIRA_KEY in r.value.metadata.value &&
                             r.value.metadata.value[JIRA_KEY] == RunStatus.Text(key)
    ensures status.Some? && status.value.metadata.Some? ==>
              forall k :: k in status.value.metadata.value && k != JIRA_KEY ==>
                k in r.value.metadata.value && r.value.metadata.value[k] == status.value.metadata.value[k]
    ensures status.Some? ==> r.value.(metadata := status.value.metadata, jiraTicketKey := status.value.jiraTicketKey) == status.value
  {
    var withKey := if status.Some? then Some(status.value.(jiraTicketKey := Some(key))) else None;
    AddMetadata(withKey, JIRA_KEY, RunStatus.Text(key))
  }

  /** Only the metadata and the ticket key of a status are ever written here. */
  predicate SameApartFromIntegration(a: Option<RunStatus.TestStatus>, b: Option<RunStatus.TestStatus>) {
    (a.None? <==> b.None?) &&
    (a.Some? ==> b.value.(metadata := a.value.metadata, jiraTicketKey := a.value.jiraTicketKey) == a.value)
  }

  // ---------------------------------------------------------------- uploadRunResults

  /** Neither listing the folders nor creating a missing one throws. */
  predicate FolderResolved(replies: Replies, folderName: string) {
    replies.folders.Returns? && (FindFolder(replies.folders.value, folderName).Some? || replies.createdFolder.Returns?)
  }

  /** The folder calls of getOrCreateFolder: the listing, then the creation when none has that name. */
  function FolderCalls(replies: Replies, folderName: string, projectKey: string): seq<Call> {
    if replies.folders.Returns? && FindFolder(replies.folders.value, folderName).None?
    then [GetFolders(projectKey, FOLDER_TYPE), CreateFolder(folderName, projectKey, FOLDER_TYPE)]
    else [GetFolders(projectKey, FOLDER_TYPE)]
  }

  /** The id getOrCreateFolder returns: the listed folder's, else the created folder's (none for null). */
  function FolderIdOf(replies: Replies, folderName: string): Option<int>
    requires FolderResolved(replies, folderName)
  {
    var existing := FindFolder(replies.folders.value, folderName);
    if existing.Some? then existing.value.id
    else if replies.createdFolder.value.Some? then replies.createdFolder.value.value.id
    else None
  }

  /**
   * getOrCreateFolder: the folder of that name if the project lists one, else a newly
   * created one; a null folder gives no id. `threw` says a client call failed.
   */
  method GetOrCreateFolder(replies: Replies, folderName: string, projectKey: string)
    returns (calls: seq<Call>, folderId: Option<int>, threw: bool)
    ensures calls != [] && calls[0] == GetFolders(projectKey, FOLDER_TYPE)
    ensures calls == FolderCalls(replies, folderName, projectKey)
    ensures threw <==> !FolderResolved(replies, folderName)
    ensures !threw ==> folderId == FolderIdOf(replies, folderName)
    ensures replies.folders.Throws? ==> calls == [GetFolders(projectKey, FOLDER_TYPE)] && threw
    ensures replies.folders.Returns? && FindFolder(replies.folders.value, folderName).Some? ==>
              calls == [GetFolders(projectKey, FOLDER_TYPE)] && !threw &&
              folderId == FindFolder(replies.folders.value, folderName).value.id
    ensures replies.folders.Returns? && FindFolder(replies.folders.value, folderName).None? ==>
              calls == [GetFolders(projectKey, FOLDER_TYPE), CreateFolder(folderName, projectKey, FOLDER_TYPE)] &&
              (threw <==> replies.createdFolder.Throws?) &&
              (replies.createdFolder.Returns? ==>
                 folderId == if replies.createdFolder.value.Some? then replies.createdFolder.value.value.id else None)
  {
    calls := [GetFolders(projectKey, FOLDER_TYPE)];
    folderId := None;
    threw := false;
    if replies.folders.Throws? {
      threw := true;
      return;
    }
    var existing := FindFolder(replies.folders.value, folderName);
    if existing.Some? {
      folderId := existing.value.id;
      return;
    }
    calls := calls + [CreateFolder(folderName, projectKey, FOLDER_TYPE)];
    if replies.createdFolder.Throws? {
      threw := true;
    } else if replies.createdFolder.value.Some? {
      folderId := replies.createdFolder.value.value.id;
    }
  }

  /**
   * The upload once a cycle key is known: the key is recorded first, then the executions are
   * uploaded and their test-case keys recorded.
   */
  method UploadExecutions(cycleKey: string, runId: RunIds.Uuid, exitCode: int, status: Option<RunStatus.TestStatus>,
                          uploadThrows: bool, report: CucumberReport)
    returns (calls: seq<Call>, result: Option<RunStatus.TestStatus>, threw: bool)
    ensures calls == [UploadTestResults(cycleKey, BuildExecutions(runId, exitCode, report))]
    ensures threw == uploadThrows
    ensures result.None? <==> status.None?
    ensures status.Some? ==> result.value.(metadata := status.value.metadata) == status.value
    ensures status.Some? ==>
              result.value.metadata.Some? && CYCLE_KEY in result.value.metadata.value &&
              result.value.metadata.value[CYCLE_KEY] == RunStatus.Text(cycleKey)
    ensures status.Some? && !uploadThrows ==>
              EXECUTIONS_KEY in result.value.metadata.value &&
              result.value.metadata.value[EXECUTIONS_KEY] ==
                RunStatus.Keys(TestCaseKeys(BuildExecutions(runId, exitCode, report)))
  {
    result := AddMetadata(status, CYCLE_KEY, RunStatus.Text(cycleKey));
    var executions := BuildExecutions(runId, exitCode, report);
    calls := [];
    threw := false;
    if executions != [] {
      calls := [UploadTestResults(cycleKey, executions)];
      if uploadThrows {
        threw := true;
      } else {
        MetadataKeysDistinct();
        result := AddMetadata(result, EXECUTIONS_KEY, RunStatus.Keys(TestCaseKeys(executions)));
      }
    }
  }

  /** createCycle, then the upload when the cycle has a key. */
  method CreateCycleAndUpload(runId: RunIds.Uuid, request: ExecutionRequest.TestExecutionRequest, exitCode: int,
                              status: Option<RunStatus.TestStatus>, replies: Replies, report: CucumberReport,
                              cycleName: string, projectKey: string, folderId: Option<int>)
    returns (calls: seq<Call>, result: Option<RunStatus.TestStatus>, threw: bool)
    ensures result.None? <==> status.None?
    ensures status.Some? ==> result.value.(metadata := status.value.metadata) == status.value
    ensures calls != [] && calls[0] == CreateTestCycle(CycleBody(cycleName, projectKey, folderId))
    ensures replies.cycleKey.Throws? || replies.cycleKey.value.None? ==> |calls| == 1 && result == status
    ensures threw <==> replies.cycleKey.Throws? || (replies.cycleKey.value.Some? && replies.uploadThrows)
    ensures replies.cycleKey.Returns? && replies.cycleKey.value.Some? ==>
              calls == [calls[0], UploadTestResults(replies.cycleKey.value.value, BuildExecutions(runId, exitCode, report))]
    ensures replies.cycleKey.Returns? && replies.cycleKey.value.Some? && status.Some? ==>
              result.value.metadata.Some? && CYCLE_KEY in result.value.metadata.value &&
              result.value.metadata.value[CYCLE_KEY] == RunStatus.Text(replies.cycleKey.value.value)
    ensures replies.cycleKey.Returns? && replies.cycleKey.value.Some? && status.Some? && !replies.uploadThrows ==>
              result.value.metadata.Some? && EXECUTIONS_KEY in result.value.metadata.value &&
              result.value.metadata.value[EXECUTIONS_KEY] ==
                RunStatus.Keys(TestCaseKeys(BuildExecutions(runId, exitCode, report)))
  {
    var first := CreateTestCycle(CycleBody(cycleName, projectKey, folderId));
    if replies.cycleKey.Throws? || replies.cycleKey.value.None? {
      calls, result, threw := [first], status, replies.cycleKey.Throws?;
    } else {
      var more;
      more, result, threw := UploadExecutions(replies.cycleKey.value.value, runId, exitCode, status,
                                              replies.uploadThrows, report);
      calls := [first] + more;
    }
  }

  /**
   * The replies under which uploadToZephyr throws: listing the folders fails, creating a
   * missing folder fails, creating the cycle fails, or the upload of the executions fails
   * after a cycle key came back.
   */
  predicate ZephyrThrows(replies: Replies, folderName: string) {
    || replies.folders.Throws?
    || (FindFolder(replies.folders.value, folderName).None? && replies.createdFolder.Throws?)
    || replies.cycleKey.Throws?
    || (replies.cycleKey.value.Some? && replies.uploadThrows)
  }

  /** uploadToZephyr: the folder, then the cycle and the executions. */
  method UploadToZephyr(runId: RunIds.Uuid, request: ExecutionRequest.TestExecutionRequest, exitCode: int,
                        status: Option<RunStatus.TestStatus>, replies: Replies, report: CucumberReport,
                        cycleName: string, projectKey: string)
    returns (calls: seq<Call>, result: Option<RunStatus.TestStatus>, threw: bool)
    ensures result.None? <==> status.None?
    ensures status.Some? ==> result.value.(metadata := status.value.metadata) == status.value
    ensures calls != [] && calls[0] == GetFolders(projectKey, FOLDER_TYPE)
    ensures forall c :: c in calls ==> !c.CreateIssue?
    ensures forall c :: c in calls && c.CreateTestCycle? ==>
              c.body.name == cycleName && c.body.projectKey == projectKey
    ensures replies.folders.Returns? && FindFolder(replies.folders.value, ResolveFolderName(request.tags)).Some? ==>
              forall c :: c in calls ==> !c.CreateFolder?
    ensures threw <==> ZephyrThrows(replies, ResolveFolderName(request.tags))
    ensures !FolderResolved(replies, ResolveFolderName(request.tags)) ==>
              calls == FolderCalls(replies, ResolveFolderName(request.tags), projectKey) && result == status
    ensures FolderResolved(replies, ResolveFolderName(request.tags)) ==>
              var cycle := CreateTestCycle(CycleBody(cycleName, projectKey, FolderIdOf(replies, ResolveFolderName(request.tags))));
              if replies.cycleKey.Returns? && replies.cycleKey.value.Some?
              then calls == FolderCalls(replies, ResolveFolderName(request.tags), projectKey) +
                            [cycle, UploadTestResults(replies.cycleKey.value.value, BuildExecutions(runId, exitCode, report))]
              else calls == FolderCalls(replies, ResolveFolderName(request.tags), projectKey) + [cycle] && result == status
    ensures FolderResolved(replies, ResolveFolderName(request.tags)) && replies.cycleKey.Returns? &&
            replies.cycleKey.value.Some? && status.Some? ==>
              result.value.metadata.Some? && CYCLE_KEY in result.value.metadata.value &&
              result.value.metadata.value[CYCLE_KEY] == RunStatus.Text(replies.cycleKey.value.value) &&
              (!replies.uploadThrows ==>
                 EXECUTIONS_KEY in result.value.metadata.value &&
                 result.value.metadata.value[EXECUTIONS_KEY] ==
                   RunStatus.Keys(TestCaseKeys(BuildExecutions(runId, exitCode, report))))
  {
    var folderCalls, folderId;
    folderCalls, folderId, threw := GetOrCreateFolder(replies, ResolveFolderName(request.tags), projectKey);
    assert forall c :: c in folderCalls ==> c.GetFolders? || c.CreateFolder?;
    result := status;
    var tail: seq<Call> := [];
    if !threw {
      tail, result, threw := CreateCycleAndUpload(runId, request, exitCode, status, replies, report,
                                                  cycleName, projectKey, folderId);
      assert forall c :: c in tail ==> c == tail[0] || c.UploadTestResults?;
    }
    calls := folderCalls + tail;
    assert forall c :: c in calls ==> c in folderCalls || c in tail;
  }

  /**
   * uploadRunResults: nothing when both integrations are off or there is no project key;
   * otherwise the Zephyr upload and, for a failed run, the Jira ticket. An exception from
   * any client ends the upload; it is not passed on.
   */
  method UploadRunResults(config: Config, runId: RunIds.Uuid, request: ExecutionRequest.TestExecutionRequest,
                          exitCode: int, status: Option<RunStatus.TestStatus>, replies: Replies,
                          report: CucumberReport, date: string)
    returns (calls: seq<Call>, result: Option<RunStatus.TestStatus>)
    ensures !config.zephyrEnabled && !config.jiraEnabled ==> calls == [] && result == status
    ensures ResolveProjectKey(request, config).None? || Text.IsBlank(ResolveProjectKey(request, config).value) ==>
              calls == [] && result == status
    ensures SameApartFromIntegration(status, result)
    ensures !config.zephyrEnabled ==> forall c :: c in calls ==> c.CreateIssue?
    ensures forall c :: c in calls && c.CreateIssue? ==> config.jiraEnabled && exitCode != 0
    ensures ResolveProjectKey(request, config).Some? ==>
              forall c :: c in calls && c.CreateTestCycle? ==>
                c.body.name == CycleName(date, runId, request.tags) &&
                c.body.projectKey == ResolveProjectKey(request, config).value
    ensures config.zephyrEnabled && ResolveProjectKey(request, config).Some? &&
            !Text.IsBlank(ResolveProjectKey(request, config).value) ==>
              calls != [] && calls[0] == GetFolders(ResolveProjectKey(request, config).value, FOLDER_TYPE)
    ensures replies.folders.Returns? &&
            FindFolder(replies.folders.value, ResolveFolderName(request.tags)).Some? ==>
              forall c :: c in calls ==> !c.CreateFolder?
    ensures config.zephyrEnabled && replies.folders.Returns? && replies.createdFolder.Returns? &&
            replies.cycleKey.Returns? && replies.cycleKey.value.Some? && status.Some? &&
            ResolveProjectKey(request, config).Some? && !Text.IsBlank(ResolveProjectKey(request, config).value) ==>
              result.value.metadata.Some? && CYCLE_KEY in result.value.metadata.value &&
              result.value.metadata.value[CYCLE_KEY] == RunStatus.Text(replies.cycleKey.value.value)
    ensures !config.zephyrEnabled && config.jiraEnabled && exitCode != 0 &&
            ResolveProjectKey(request, config).Some? && !Text.IsBlank(ResolveProjectKey(request, config).value) ==>
              calls == [CreateIssue(JiraIssueFor(config, runId, request, ResolveProjectKey(request, config).value, status))] &&
              (replies.issueKey.Returns? && replies.issueKey.value.Some? ==>
                 result == StoreTicket(status, replies.issueKey.value.value))
    ensures config.jiraEnabled && exitCode != 0 &&
            ResolveProjectKey(request, config).Some? && !Text.IsBlank(ResolveProjectKey(request, config).value) &&
            !(config.zephyrEnabled && ZephyrThrows(replies, ResolveFolderName(request.tags))) ==>
              calls != [] &&
              calls[|calls| - 1] == CreateIssue(JiraIssueFor(config, runId, request, ResolveProjectKey(request, config).value, status)) &&
              (replies.issueKey.Returns? && replies.issueKey.value.Some? && status.Some? ==>
                 result.value.jiraTicketKey == Some(replies.issueKey.value.value) &&
                 result.value.metadata.Some? && JIRA_KEY in result.value.metadata.value &&
                 result.value.metadata.value[JIRA_KEY] == RunStatus.Text(replies.issueKey.value.value))
    ensures config.zephyrEnabled && ZephyrThrows(replies, ResolveFolderName(request.tags)) ==>
              forall c :: c in calls ==> !c.CreateIssue?
  {
    calls := [];
    result := status;
    if !config.zephyrEnabled && !config.jiraEnabled {
      return;
    }
    var projectKey := ResolveProjectKey(request, config);
    if projectKey.None? || Text.IsBlank(projectKey.value) {
      return;
    }
    calls, result := UploadWithKey(config, runId, request, exitCode, status, replies, report, date, projectKey.value);
  }

  /** The try block of uploadRunResults, for a project key that is present and not blank. */
  method UploadWithKey(config: Config, runId: RunIds.Uuid, request: ExecutionRequest.TestExecutionRequest,
                       exitCode: int, status: Option<RunStatus.TestStatus>, replies: Replies,
                       report: CucumberReport, date: string, key: string)
    returns (calls: seq<Call>, result: Option<RunStatus.TestStatus>)
    ensures SameApartFromIntegration(status, result)
    ensures !config.zephyrEnabled ==> forall c :: c in calls ==> c.CreateIssue?
    ensures forall c :: c in calls && c.CreateIssue? ==> config.jiraEnabled && exitCode != 0
    ensures forall c :: c in calls && c.CreateTestCycle? ==>
              c.body.name == CycleName(date, runId, request.tags) && c.body.projectKey == key
    ensures config.zephyrEnabled ==> calls != [] && calls[0] == GetFolders(key, FOLDER_TYPE)
    ensures replies.folders.Returns? &&
            FindFolder(replies.folders.value, ResolveFolderName(request.tags)).Some? ==>
              forall c :: c in calls ==> !c.CreateFolder?
    ensures config.zephyrEnabled && replies.folders.Returns? && replies.createdFolder.Returns? &&
            replies.cycleKey.Returns? && replies.cycleKey.value.Some? && status.Some? ==>
              result.value.metadata.Some? && CYCLE_KEY in result.value.metadata.value &&
              result.value.metadata.value[CYCLE_KEY] == RunStatus.Text(replies.cycleKey.value.value)
    ensures !config.zephyrEnabled && config.jiraEnabled && exitCode != 0 ==>
              calls == [CreateIssue(JiraIssueFor(config, runId, request, key, status))] &&
              (replies.issueKey.Returns? && replies.issueKey.value.Some? ==>
                 result == StoreTicket(status, replies.issueKey.value.value))
    ensures config.jiraEnabled && exitCode != 0 &&
            !(config.zephyrEnabled && ZephyrThrows(replies, ResolveFolderName(request.tags))) ==>
              calls != [] && calls[|calls| - 1] == CreateIssue(JiraIssueFor(config, runId, request, key, status)) &&
              (replies.issueKey.Returns? && replies.issueKey.value.Some? && status.Some? ==>
                 result.value.jiraTicketKey == Some(replies.issueKey.value.value) &&
                 result.value.metadata.Some? && JIRA_KEY in result.value.metadata.value &&
                 result.value.metadata.value[JIRA_KEY] == RunStatus.Text(replies.issueKey.value.value))
    ensures config.zephyrEnabled && ZephyrThrows(replies, ResolveFolderName(request.tags)) ==>
              forall c :: c in calls ==> !c.CreateIssue?
  {
    var threw;
    calls, result, threw := ZephyrIfEnabled(config, runId, request, exitCode, status, replies, report, date, key);
    ghost var zephyrCalls, zephyrResult := calls, result;
    var ticketCalls;
    ticketCalls, result := TicketIfFailed(config, runId, request, exitCode, key, status, result, threw, replies);
    calls := calls + ticketCalls;
    assert forall c :: c in calls ==> c in zephyrCalls || c in ticketCalls;
    MetadataKeysDistinct();
  }

  /** The first step of the try block: the Zephyr upload when Zephyr is on. */
  method ZephyrIfEnabled(config: Config, runId: RunIds.Uuid, request: ExecutionRequest.TestExecutionRequest,
                         exitCode: int, status: Option<RunStatus.TestStatus>, replies: Replies,
                         report: CucumberReport, date: string, key: string)
    returns (calls: seq<Call>, result: Option<RunStatus.TestStatus>, threw: bool)
    ensures !config.zephyrEnabled ==> calls == [] && result == status && !threw
    ensures config.zephyrEnabled ==> calls != [] && calls[0] == GetFolders(key, FOLDER_TYPE)
    ensures threw <==> config.zephyrEnabled && ZephyrThrows(replies, ResolveFolderName(request.tags))
    ensures SameApartFromIntegration(status, result)
    ensures forall c :: c in calls ==> !c.CreateIssue?
    ensures forall c :: c in calls && c.CreateTestCycle? ==>
              c.body.name == CycleName(date, runId, request.tags) && c.body.projectKey == key
    ensures replies.folders.Returns? && FindFolder(replies.folders.value, ResolveFolderName(request.tags)).Some? ==>
              forall c :: c in calls ==> !c.CreateFolder?
    ensures config.zephyrEnabled && replies.folders.Returns? && replies.createdFolder.Returns? &&
            replies.cycleKey.Returns? && replies.cycleKey.value.Some? && status.Some? ==>
              result.value.metadata.Some? && CYCLE_KEY in result.value.metadata.value &&
              result.value.metadata.value[CYCLE_KEY] == RunStatus.Text(replies.cycleKey.value.value)
  {
    calls, result, threw := [], status, false;
    if config.zephyrEnabled {
      calls, result, threw := UploadToZephyr(runId, request, exitCode, status, replies, report,
                                              CycleName(date, runId, request.tags), key);
    }
  }

  /**
   * The second step of the try block: the Jira ticket for a failed run, unless the Zephyr
   * upload threw. `status` is the record as it was before the upload, `current` as it is now.
   */
  method TicketIfFailed(config: Config, runId: RunIds.Uuid, request: ExecutionRequest.TestExecutionRequest,
                        exitCode: int, key: string, status: Option<RunStatus.TestStatus>,
                        current: Option<RunStatus.TestStatus>, threw: bool, replies: Replies)
    returns (calls: seq<Call>, result: Option<RunStatus.TestStatus>)
    requires SameApartFromIntegration(status, current)
    ensures threw || !config.jiraEnabled || exitCode == 0 ==> calls == [] && result == current
    ensures !threw && config.jiraEnabled && exitCode != 0 ==>
              calls == [CreateIssue(JiraIssueFor(config, runId, request, key, status))] &&
              (replies.issueKey.Returns? && replies.issueKey.value.Some? ==>
                 result == StoreTicket(current, replies.issueKey.value.value)) &&
              (!(replies.issueKey.Returns? && replies.issueKey.value.Some?) ==> result == current)
    ensures !threw && config.jiraEnabled && exitCode != 0 &&
            replies.issueKey.Returns? && replies.issueKey.value.Some? && current.Some? ==>
              result.value.jiraTicketKey == Some(replies.issueKey.value.value) &&
              result.value.metadata.Some? && JIRA_KEY in result.value.metadata.value &&
              result.value.metadata.value[JIRA_KEY] == RunStatus.Text(replies.issueKey.value.value)
    ensures SameApartFromIntegration(status, result)
    ensures current.Some? && current.value.metadata.Some? ==>
              result.value.metadata.Some? &&
              forall k :: k in current.value.metadata.value && k != JIRA_KEY ==>
                k in result.value.metadata.value && result.value.metadata.value[k] == current.value.metadata.value[k]
  {
    calls := [];
    result := current;
    if !threw && config.jiraEnabled && exitCode != 0 {
      var call;
      call, result := CreateJiraTicket(config, runId, request, key, current, replies);
      JiraIssueIgnoresIntegration(config, runId, request, key, status, current);
      calls := [call];
      SameApartComposes(status, current, result);
    }
  }

  /**
   * createJiraTicket: one createIssue call; a returned issue with a key is written back, and
   * nothing else of the status changes.
   */
  method CreateJiraTicket(config: Config, runId: RunIds.Uuid, request: ExecutionRequest.TestExecutionRequest,
                          projectKey: string, status: Option<RunStatus.TestStatus>, replies: Replies)
    returns (call: Call, result: Option<RunStatus.TestStatus>)
    ensures call == CreateIssue(JiraIssueFor(config, runId, request, projectKey, status))
    ensures replies.issueKey.Returns? && replies.issueKey.value.Some? ==>
              result == StoreTicket(status, replies.issueKey.value.value)
    ensures !(replies.issueKey.Returns? && replies.issueKey.value.Some?) ==> result == status
    ensures SameApartFromIntegration(status, result)
    ensures status.Some? && status.value.metadata.Some? ==>
              result.value.metadata.Some? &&
              forall k :: k in status.value.metadata.value && k != JIRA_KEY ==>
                k in result.value.metadata.value && result.value.metadata.value[k] == status.value.metadata.value[k]
  {
    call := CreateIssue(JiraIssueFor(config, runId, request, projectKey, status));
    result := status;
    if replies.issueKey.Returns? && replies.issueKey.value.Some? {
      result := StoreTicket(status, replies.issueKey.value.value);
    }
  }

  /** The ticket reads only the error message of the status, which the Zephyr upload does not write. */
  lemma JiraIssueIgnoresIntegration(config: Config, runId: RunIds.Uuid, request: ExecutionRequest.TestExecutionRequest,
                                    projectKey: string, a: Option<RunStatus.TestStatus>, b: Option<RunStatus.TestStatus>)
    requires SameApartFromIntegration(a, b)
    ensures JiraIssueFor(config, runId, request, projectKey, a) == JiraIssueFor(config, runId, request, projectKey, b)
  {
    if a.Some? {
      assert b.value.errorMessage == a.value.errorMessage;
    }
  }

  lemma SameApartComposes(a: Option<RunStatus.TestStatus>, b: Option<RunStatus.TestStatus>, c: Option<RunStatus.TestStatus>)
    requires SameApartFromIntegration(a, b) && SameApartFromIntegration(b, c)
    ensures SameApartFromIntegration(a, c)
  {
  }
}
