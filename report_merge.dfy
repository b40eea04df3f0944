/**
 * The combined Allure report of TestExecutionService: discovery of the stored runs, their
 * ordering by the timestamp in each run's executor.json, the enriched staging copies
 * (suite label, run tag, per-run history ids, build orders 1..N), and the executor.json
 * writer and readers. Directories are maps from file names to structured file contents;
 * the Allure renderer is a parameter whose only observable result is whether it produced
 * index.html.
 */
module ReportMerge {
  import opened Wrappers
  import Text
  import RunIds
  import ExecutionRequest

  const EXECUTOR := "executor.json"
  const RESULT_SUFFIX := "-result.json"
  const COMBINED_URL := "/reports/combined/allure-report/index.html"
  const UNKNOWN_ENV := "unknown"
  const PARENT_SUITE := "parentSuite"
  const TAG := "tag"

  datatype Label = Label(name: string, value: string)

  /** The fields of an Allure result file that the merge reads or rewrites. */
  datatype TestResult = TestResult(historyId: Option<string>, labels: Option<seq<Label>>)

  /** executor.json: the build name, the build order and the optional report name. */
  datatype Manifest = Manifest(buildName: string, buildOrder: int, reportName: Option<string>, reportUrl: string)

  /** A stored file: a result record, an executor.json, or anything else (copied as is). */
  datatype File = ResultJson(result: TestResult) | ExecutorJson(manifest: Manifest) | Verbatim(content: string)

  type Dir = map<string, File>

  /** A run directory: its allure-results sub-directory, when it has one. */
  datatype RunDir = RunDir(allureResults: Option<Dir>)

  /**
   * The results base directory: its entries in listing order, the entries that are
   * directories, and the history of the previous combined report, when there is one.
   */
  datatype ResultsRoot = ResultsRoot(listing: seq<string>, dirs: map<string, RunDir>, combinedHistory: Option<Dir>)

  function ReportUrl(runId: RunIds.Uuid): string {
    "/reports/" + runId + "/allure-report/index.html"
  }

  // ---------------------------------------------------------------- executor.json

  function EnvironmentText(environment: Option<string>): string {
    if environment.Some? then environment.value else UNKNOWN_ENV
  }

  function TagsText(tags: Option<seq<string>>): string {
    if tags.Some? then Text.Join(tags.value, ", ") else ""
  }

  /** The executor.json writeExecutorJson writes during a run. */
  function RunManifest(runId: RunIds.Uuid, request: ExecutionRequest.TestExecutionRequest, now: int): (m: Manifest)
    ensures m.buildName == "Run " + RunIds.Short(runId)
    ensures m.buildOrder == now && m.reportUrl == ReportUrl(runId)
    ensures m.reportName == Some(m.buildName + " [" + EnvironmentText(request.environment) + "] " + TagsText(request.tags))
  {
    var buildName := "Run " + RunIds.Short(runId);
    Manifest(buildName, now, Some(buildName + " [" + EnvironmentText(request.environment) + "] " + TagsText(request.tags)),
             ReportUrl(runId))
  }

  /** writeExecutorJson: only a run that has allure-results gets an executor.json. */
  function WriteExecutorJson(results: Option<Dir>, runId: RunIds.Uuid, request: ExecutionRequest.TestExecutionRequest,
                             now: int): (r: Option<Dir>)
    ensures results.None? ==> r.None?
    ensures results.Some? ==> r.Some? && r.value.Keys == results.value.Keys + {EXECUTOR} &&
                              r.value[EXECUTOR] == ExecutorJson(RunManifest(runId, request, now)) &&
                              forall k :: k in results.value && k != EXECUTOR ==> r.value[k] == results.value[k]
  {
    if results.None? then None
    else Some(results.value[EXECUTOR := ExecutorJson(RunManifest(runId, request, now))])
  }

  /** readTimestampFromExecutorJson: the build order, or 0 without a file or a (non-negative) field. */
  function ReadTimestamp(results: Dir): (r: nat)
    ensures EXECUTOR !in results || !results[EXECUTOR].ExecutorJson? ==> r == 0
    ensures EXECUTOR in results && results[EXECUTOR].ExecutorJson? ==>
              r == if results[EXECUTOR].manifest.buildOrder >= 0 then results[EXECUTOR].manifest.buildOrder else 0
  {
    if EXECUTOR in results && results[EXECUTOR].ExecutorJson? && results[EXECUTOR].manifest.buildOrder >= 0
    then results[EXECUTOR].manifest.buildOrder
    else 0
  }

  function FirstIndex(s: string, c: char): (r: Option<nat>)
    ensures r.None? <==> c !in s
    ensures r.Some? ==> r.value < |s| && s[r.value] == c && c !in s[..r.value]
  {
    if s == [] then None
    else if s[0] == c then Some(0)
    else
      var r := FirstIndex(s[1..], c);
      assert s[1..] == s[..][1..];
      if r.None? then None
      else
        assert s[..r.value + 1] == [s[0]] + s[1..][..r.value];
        Some(r.value + 1)
  }

  /**
   * The tags a report name carries: what follows the first "[...]" group, trimmed; nothing
   * when there is no such group.
   */
  function TagsOfReportName(name: string): (r: string)
    ensures Text.IsTrimmed(r)
    ensures FirstIndex(name, '[').None? ==> r == ""
  {
    var open := FirstIndex(name, '[');
    if open.None? then ""
    else
      var rest := name[open.value + 1..];
      var close := FirstIndex(rest, ']');
      if close.None? then "" else Text.Trim(rest[close.value + 1..])
  }

  /** readTagsFromExecutorJson: the tags of the report name, or "" without a file or a report name. */
  function ReadTags(results: Dir): (r: string)
    ensures EXECUTOR !in results || !results[EXECUTOR].ExecutorJson? ==> r == ""
    ensures Text.IsTrimmed(r)
  {
    if EXECUTOR in results && results[EXECUTOR].ExecutorJson? && results[EXECUTOR].manifest.reportName.Some?
    then TagsOfReportName(results[EXECUTOR].manifest.reportName.value)
    else ""
  }

  lemma TrimSkipsSpace(s: string)
    ensures Text.Trim(" " + s) == Text.Trim(s)
  {
    assert (" " + s)[1..] == s;
  }

  /** Reading back what the writer wrote gives the run's timestamp. */
  lemma TimestampRoundTrip(results: Dir, runId: RunIds.Uuid, request: ExecutionRequest.TestExecutionRequest, now: nat)
    ensures ReadTimestamp(WriteExecutorJson(Some(results), runId, request, now).value) == now
  {
  }

  lemma FirstIndexAt(head: string, c: char, tail: string)
    requires c !in head
    ensures FirstIndex(head + [c] + tail, c) == Some(|head|)
  {
    var s := head + [c] + tail;
    assert s[|head|] == c;
    assert s[..|head|] == head;
  }

  /** The tags part of a report name "<head> [<env>] <tags>". */
  lemma TagsOfWrittenName(head: string, env: string, tags: string)
    requires '[' !in head && ']' !in env
    ensures TagsOfReportName(head + " [" + env + "] " + tags) == Text.Trim(tags)
  {
    var rest := env + "] " + tags;
    var name := head + " [" + env + "] " + tags;
    var before := head + " ";
    assert name == before + ['['] + rest;
    FirstIndexAt(before, '[', rest);
    assert name[|before| + 1..] == rest;
    assert rest == env + [']'] + (" " + tags);
    FirstIndexAt(env, ']', " " + tags);
    assert rest[|env| + 1..] == " " + tags;
    TrimSkipsSpace(tags);
  }

  /** Reading back what the writer wrote gives the joined tags, when the environment has no ']'. */
  lemma TagsRoundTrip(results: Dir, runId: RunIds.Uuid, request: ExecutionRequest.TestExecutionRequest, now: int)
    requires ']' !in EnvironmentText(request.environment)
    ensures ReadTags(WriteExecutorJson(Some(results), runId, request, now).value) == Text.Trim(TagsText(request.tags))
  {
    var m := RunManifest(runId, request, now);
    var d := WriteExecutorJson(Some(results), runId, request, now).value;
    assert d[EXECUTOR] == ExecutorJson(m);
    assert '[' !in m.buildName by {
      assert '[' !in RunIds.Short(runId);
    }
    TagsOfWrittenName(m.buildName, EnvironmentText(request.environment), TagsText(request.tags));
  }

  /** A valid request's environment has no ']', so its tags always come back. */
  lemma ValidEnvironmentHasNoBracket(request: ExecutionRequest.TestExecutionRequest)
    requires ExecutionRequest.EnvironmentValid(request)
    ensures ']' !in EnvironmentText(request.environment)
  {
    ExecutionRequest.EnvironmentValidIff(request);
  }

  // ---------------------------------------------------------------- enrichment

  /** The suite label: "[date ]" + short id + "[ tags]", each optional piece only when non-empty. */
  function SuiteLabel(date: string, runId: RunIds.Uuid, tags: string): (r: string)
    ensures date == "" && tags == "" ==> r == RunIds.Short(runId)
    ensures date != "" ==> Text.StartsWith(r, date + " ")
    ensures date == "" ==> Text.StartsWith(r, RunIds.Short(runId))
    ensures var d := if date == "" then 0 else |date| + 1; |r| >= d + 8 && r[d..d + 8] == RunIds.Short(runId)
    ensures tags != "" ==> Text.EndsWith(r, " " + tags)
    ensures tags == "" ==> Text.EndsWith(r, RunIds.Short(runId))
    ensures |r| == (if date == "" then 0 else |date| + 1) + 8 + (if tags == "" then 0 else |tags| + 1)
  {
    (if date == "" then "" else date + " ") + RunIds.Short(runId) + (if tags == "" then "" else " " + tags)
  }

  /** The date part is the formatted run timestamp, and only for a positive timestamp. */
  function SuiteLabelOf(results: Dir, runId: RunIds.Uuid, timestamp: int, formatDate: int -> string): string {
    SuiteLabel(if timestamp > 0 then formatDate(timestamp) else "", runId, ReadTags(results))
  }

  /** The "tag" label "run-<first 8 characters of the run id>". */
  function RunTag(runId: RunIds.Uuid): (r: Label)
    ensures r.name == TAG && |r.value| == 12 && Text.StartsWith(r.value, "run-") && r.value[4..] == runId[..8]
  {
    var r := Label(TAG, "run-" + RunIds.Short(runId));
    assert r.value[4..] == RunIds.Short(runId);
    r
  }

  /** Two runs get the same run tag exactly when their ids share the first 8 characters. */
  lemma {:induction false} RunTagsDistinct(a: RunIds.Uuid, b: RunIds.Uuid)
    ensures RunTag(a) == RunTag(b) <==> a[..8] == b[..8]
  {
    if RunTag(a) == RunTag(b) {
      assert RunTag(a).value[4..] == RunTag(b).value[4..];
    }
  }

  /** historyId becomes "<old>-<runId>"; an empty or missing one stays as it is. */
  function RunHistoryId(historyId: Option<string>, runId: RunIds.Uuid): (r: Option<string>)
    ensures historyId.None? ==> r.None?
    ensures historyId.Some? && historyId.value != "" ==> r == Some(historyId.value + "-" + runId)
    ensures historyId == Some("") ==> r == historyId
  {
    if historyId.Some? && historyId.value != "" then Some(historyId.value + "-" + runId) else historyId
  }

  /** The same history id in two different runs becomes two different ids. */
  lemma {:induction false} RunHistoryIdsDistinct(h1: string, h2: string, id1: RunIds.Uuid, id2: RunIds.Uuid)
    requires h1 != "" && h2 != ""
    requires RunHistoryId(Some(h1), id1) == RunHistoryId(Some(h2), id2)
    ensures id1 == id2 && h1 == h2
  {
    var a := h1 + "-" + id1;
    var b := h2 + "-" + id2;
    assert a == b;
    assert |id1| == |id2| == 36;
    assert a[|a| - 36..] == id1;
    assert b[|b| - 36..] == id2;
    assert |h1| == |h2|;
    assert a[..|h1|] == h1;
    assert b[..|h2|] == h2;
  }

  /** A result record with the parentSuite and run labels first and a per-run history id. */
  function EnrichResult(r: TestResult, suiteLabel: string, runId: RunIds.Uuid): (e: TestResult)
    ensures e.historyId == RunHistoryId(r.historyId, runId)
    ensures r.labels.None? ==> e.labels.None?
    ensures r.labels.Some? ==> e.labels == Some([Label(PARENT_SUITE, suiteLabel), RunTag(runId)] + r.labels.value)
  {
    TestResult(RunHistoryId(r.historyId, runId),
               if r.labels.Some? then Some([Label(PARENT_SUITE, suiteLabel), RunTag(runId)] + r.labels.value) else None)
  }

  predicate IsResultFile(name: string, f: File) {
    Text.EndsWith(name, RESULT_SUFFIX) && f.ResultJson?
  }

  /** A "*-result.json" record is enriched; every other file is copied as it is. */
  function CopyFile(name: string, f: File, suiteLabel: string, runId: RunIds.Uuid): (r: File)
    ensures !IsResultFile(name, f) ==> r == f
    ensures r.ResultJson? <==> f.ResultJson?
    ensures IsResultFile(name, f) ==>
              r.result.historyId == RunHistoryId(f.result.historyId, runId) &&
              (r.result.labels.Some? <==> f.result.labels.Some?) &&
              (f.result.labels.Some? ==>
                 |r.result.labels.value| == |f.result.labels.value| + 2 &&
                 r.result.labels.value[..2] == [Label(PARENT_SUITE, suiteLabel), RunTag(runId)] &&
                 r.result.labels.value[2..] == f.result.labels.value)
  {
    if IsResultFile(name, f) then ResultJson(EnrichResult(f.result, suiteLabel, runId)) else f
  }

  /** The staging manifest: the suite label as build name and the staging build order. */
  function StagingManifest(suiteLabel: string, buildOrder: int, runId: RunIds.Uuid): (m: Manifest)
    ensures m.buildName == suiteLabel && m.buildOrder == buildOrder
    ensures m.reportName.None? && m.reportUrl == ReportUrl(runId)
  {
    Manifest(suiteLabel, buildOrder, None, ReportUrl(runId))
  }

  /** The build order written into a staging copy is the one readTimestampFromExecutorJson reads back. */
  lemma {:induction false} StagedBuildOrderRead(source: Dir, runId: RunIds.Uuid, buildOrder: nat, timestamp: int,
                                                formatDate: int -> string)
    ensures ReadTimestamp(EnrichedCopy(source, runId, buildOrder, timestamp, formatDate)) == buildOrder
  {
    var c := EnrichedCopy(source, runId, buildOrder, timestamp, formatDate);
    assert EXECUTOR in c && c[EXECUTOR].ExecutorJson?;
    assert c[EXECUTOR].manifest.buildOrder == buildOrder;
  }

  /** The staging copy of one run's allure-results. */
  function EnrichedCopy(source: Dir, runId: RunIds.Uuid, buildOrder: int, timestamp: int,
                        formatDate: int -> string): Dir
  {
    var suiteLabel := SuiteLabelOf(source, runId, timestamp, formatDate);
    (map k | k in source :: CopyFile(k, source[k], suiteLabel, runId))
      [EXECUTOR := ExecutorJson(StagingManifest(suiteLabel, buildOrder, runId))]
  }

  /**
   * What a staging copy holds: the source's files plus executor.json; result records
   * enriched, other files unchanged, and a manifest carrying the build order.
   */
  lemma EnrichedCopyContents(source: Dir, runId: RunIds.Uuid, buildOrder: int, timestamp: int,
                             formatDate: int -> string)
    ensures var c := EnrichedCopy(source, runId, buildOrder, timestamp, formatDate);
            var suiteLabel := SuiteLabelOf(source, runId, timestamp, formatDate);
            c.Keys == source.Keys + {EXECUTOR} &&
            c[EXECUTOR].ExecutorJson? && c[EXECUTOR].manifest.buildOrder == buildOrder &&
            c[EXECUTOR].manifest.buildName == suiteLabel &&
            (forall k :: k in source && k != EXECUTOR && !IsResultFile(k, source[k]) ==> c[k] == source[k]) &&
            (forall k :: k in source && k != EXECUTOR && IsResultFile(k, source[k]) ==>
               c[k].ResultJson? && c[k].result.historyId == RunHistoryId(source[k].result.historyId, runId) &&
               (source[k].result.labels.Some? ==>
                  c[k].result.labels.Some? &&
                  c[k].result.labels.value[..2] == [Label(PARENT_SUITE, suiteLabel), RunTag(runId)] &&
                  c[k].result.labels.value[2..] == source[k].result.labels.value))
  {
  }

  /** The forEach over the source files: result records enriched, the rest copied. */
  method CopyFiles(source: Dir, suiteLabel: string, runId: RunIds.Uuid) returns (target: Dir)
    ensures target == map k | k in source :: CopyFile(k, source[k], suiteLabel, runId)
  {
    target := map[];
    var pending := source.Keys;
    while pending != {}
      invariant pending <= source.Keys
      invariant target.Keys == source.Keys - pending
      invariant forall k :: k in target ==> target[k] == CopyFile(k, source[k], suiteLabel, runId)
      decreases |pending|
    {
      var name :| name in pending;
      target := target[name := CopyFile(name, source[name], suiteLabel, runId)];
      pending := pending - {name};
    }
  }

  /** copyAndEnrichResults: the copied files, then the staging executor.json. */
  method CopyAndEnrichResults(source: Dir, runId: RunIds.Uuid, buildOrder: int, timestamp: int,
                              formatDate: int -> string)
    returns (target: Dir)
    ensures target == EnrichedCopy(source, runId, buildOrder, timestamp, formatDate)
  {
    var date := if timestamp > 0 then formatDate(timestamp) else "";
    var suiteLabel := SuiteLabel(date, runId, ReadTags(source));
    target := CopyFiles(source, suiteLabel, runId);
    target := target[EXECUTOR := ExecutorJson(StagingManifest(suiteLabel, buildOrder, runId))];
  }

  // ---------------------------------------------------------------- discovery and ordering

  /** A stored run: a directory with an allure-results sub-directory. */
  predicate HasResults(root: ResultsRoot, name: string) {
    name in root.dirs && root.dirs[name].allureResults.Some?
  }

  /**
   * The run's directory as the engine left it: the runner creates <runId>/allure-results
   * before the scenarios run, so a run that returned is listed, with or without results.
   */
  function WithRunOutput(root: ResultsRoot, runId: RunIds.Uuid, output: Option<Dir>): (r: ResultsRoot)
    ensures r.dirs == root.dirs[runId := RunDir(output)] && r.combinedHistory == root.combinedHistory
    ensures runId in r.listing && forall i :: 0 <= i < |root.listing| ==> root.listing[i] in r.listing
    ensures HasResults(r, runId) <==> output.Some?
    ensures forall name :: name != runId ==> (HasResults(r, name) <==> HasResults(root, name))
  {
    ResultsRoot(if runId in root.listing then root.listing else root.listing + [runId],
                root.dirs[runId := RunDir(output)], root.combinedHistory)
  }

  /** A run whose engine left allure-results is one of the stored runs from then on. */
  lemma {:induction false} RunOutputListed(root: ResultsRoot, runId: RunIds.Uuid, output: Dir)
    ensures runId in ListAvailableRuns(WithRunOutput(root, runId, Some(output)))
  {
    var r := WithRunOutput(root, runId, Some(output));
    var i :| 0 <= i < |r.listing| && r.listing[i] == runId;
    assert HasResults(r, r.listing[i]) && RunIds.ParseUuid(r.listing[i]) == Some(runId);
  }

  function ResultsOf(root: ResultsRoot, id: RunIds.Uuid): Dir {
    if HasResults(root, id) then root.dirs[id].allureResults.value else map[]
  }

  function Discover(listing: seq<string>, root: ResultsRoot): (r: seq<RunIds.Uuid>)
    ensures forall id :: id in r <==>
              exists i :: 0 <= i < |listing| && HasResults(root, listing[i]) && RunIds.ParseUuid(listing[i]) == Some(id)
  {
    if listing == [] then []
    else
      var rest := Discover(listing[1..], root);
      assert forall i :: 0 < i < |listing| ==> listing[i] == listing[1..][i - 1];
      var name := listing[0];
      if HasResults(root, name) && RunIds.ParseUuid(name).Some? then
        [RunIds.ParseUuid(name).value] + rest
      else rest
  }

  /** listAvailableRuns: the listed directories that have allure-results and whose name is a UUID. */
  function ListAvailableRuns(root: ResultsRoot): (r: seq<RunIds.Uuid>)
    ensures forall id :: id in r <==>
              exists i :: 0 <= i < |root.listing| && HasResults(root, root.listing[i]) &&
                          RunIds.ParseUuid(root.listing[i]) == Some(id)
  {
    Discover(root.listing, root)
  }

  /** The runs to merge: the requested ones, or every stored run when none are requested. */
  function EffectiveRunIds(runIds: Option<seq<RunIds.Uuid>>, root: ResultsRoot): (r: seq<RunIds.Uuid>)
    ensures runIds.Some? && runIds.value != [] ==> r == runIds.value
    ensures runIds.None? || runIds.value == [] ==> r == ListAvailableRuns(root)
  {
    if runIds.None? || runIds.value == [] then ListAvailableRuns(root) else runIds.value
  }

  /** The runs that have allure-results, in the given order. */
  function ValidRunIds(ids: seq<RunIds.Uuid>, root: ResultsRoot): (r: seq<RunIds.Uuid>)
    ensures |r| <= |ids|
    ensures forall id :: id in r <==> id in ids && HasResults(root, id)
  {
    if ids == [] then []
    else
      var rest := ValidRunIds(ids[1..], root);
      assert forall id :: id in ids <==> id == ids[0] || id in ids[1..];
      if HasResults(root, ids[0]) then [ids[0]] + rest else rest
  }

  datatype RunEntry = RunEntry(id: RunIds.Uuid, timestamp: int)

  function Entries(ids: seq<RunIds.Uuid>, root: ResultsRoot): (r: seq<RunEntry>)
    ensures |r| == |ids|
    ensures forall i :: 0 <= i < |r| ==> r[i] == RunEntry(ids[i], ReadTimestamp(ResultsOf(root, ids[i])))
  {
    if ids == [] then [] else [RunEntry(ids[0], ReadTimestamp(ResultsOf(root, ids[0])))] + Entries(ids[1..], root)
  }

  predicate SortedByTime(s: seq<RunEntry>) {
    forall i, j :: 0 <= i < j < |s| ==> s[i].timestamp <= s[j].timestamp
  }

  /** Inserts before the first entry that is not older, so equal timestamps keep their order. */
  function InsertByTime(e: RunEntry, s: seq<RunEntry>): (r: seq<RunEntry>)
    ensures multiset(r) == multiset(s) + multiset{e}
    ensures forall x :: x in r ==> x == e || x in s
  {
    if s == [] || e.timestamp <= s[0].timestamp then [e] + s
    else
      assert s == [s[0]] + s[1..];
      [s[0]] + InsertByTime(e, s[1..])
  }

  lemma {:induction false} InsertKeepsSorted(e: RunEntry, s: seq<RunEntry>)
    requires SortedByTime(s)
    ensures SortedByTime(InsertByTime(e, s))
  {
    if s != [] && e.timestamp > s[0].timestamp {
      var tail := s[1..];
      assert forall k :: 0 <= k < |tail| ==> tail[k] == s[k + 1];
      InsertKeepsSorted(e, tail);
      InsertAbove(s[0].timestamp, e, tail);
      ConsSorted(s[0], InsertByTime(e, tail));
      assert InsertByTime(e, s) == [s[0]] + InsertByTime(e, tail);
    }
  }

  /** A lower bound of an entry and of a sequence bounds the sequence with the entry inserted. */
  lemma InsertAbove(bound: int, e: RunEntry, s: seq<RunEntry>)
    requires bound <= e.timestamp && forall k :: 0 <= k < |s| ==> bound <= s[k].timestamp
    ensures forall x :: x in InsertByTime(e, s) ==> bound <= x.timestamp
  {
    forall x | x in InsertByTime(e, s) ensures bound <= x.timestamp {
      if x != e {
        var k :| 0 <= k < |s| && s[k] == x;
      }
    }
  }

  lemma ConsSorted(h: RunEntry, s: seq<RunEntry>)
    requires SortedByTime(s) && forall x :: x in s ==> h.timestamp <= x.timestamp
    ensures SortedByTime([h] + s)
  {
    var r := [h] + s;
    forall i, j | 0 <= i < j < |r| ensures r[i].timestamp <= r[j].timestamp {
      assert r[j] == s[j - 1];
      if i > 0 {
        assert r[i] == s[i - 1];
      }
    }
  }

  /** The stable ascending sort by timestamp (List.sort with comparingLong). */
  function SortByTime(s: seq<RunEntry>): (r: seq<RunEntry>)
    ensures SortedByTime(r)
    ensures multiset(r) == multiset(s)
  {
    if s == [] then [] else
      assert s == [s[0]] + s[1..];
      var sortedTail := SortByTime(s[1..]);
      InsertKeepsSorted(s[0], sortedTail);
      InsertByTime(s[0], sortedTail)
  }

  /** The entries with one timestamp, in their order. */
  function WithTime(s: seq<RunEntry>, t: int): seq<RunEntry> {
    if s == [] then []
    else (if s[0].timestamp == t then [s[0]] else []) + WithTime(s[1..], t)
  }

  lemma WithTimeCons(x: RunEntry, s: seq<RunEntry>, t: int)
    ensures WithTime([x] + s, t) == (if x.timestamp == t then [x] else []) + WithTime(s, t)
  {
    assert ([x] + s)[1..] == s;
  }

  lemma {:induction false} InsertWithTime(e: RunEntry, s: seq<RunEntry>, t: int)
    ensures WithTime(InsertByTime(e, s), t) == (if e.timestamp == t then [e] else []) + WithTime(s, t)
  {
    if s == [] || e.timestamp <= s[0].timestamp {
      WithTimeCons(e, s, t);
    } else {
      var rest := InsertByTime(e, s[1..]);
      assert InsertByTime(e, s) == [s[0]] + rest;
      WithTimeCons(s[0], rest, t);
      InsertWithTime(e, s[1..], t);
      WithTimeCons(s[0], s[1..], t);
      assert [s[0]] + s[1..] == s;
      // the two heads have different timestamps, so at most one of them is kept
      var he := if e.timestamp == t then [e] else [];
      var hs := if s[0].timestamp == t then [s[0]] else [];
      var w := WithTime(s[1..], t);
      assert hs == [] || he == [];
      assert hs + (he + w) == he + (hs + w);
    }
  }

  /** Stability: the runs with equal timestamps keep their relative order. */
  lemma {:induction false} SortIsStable(s: seq<RunEntry>, t: int)
    ensures WithTime(SortByTime(s), t) == WithTime(s, t)
  {
    if s != [] {
      SortIsStable(s[1..], t);
      InsertWithTime(s[0], SortByTime(s[1..]), t);
    }
  }

  /** The merge order: the valid runs sorted by their executor.json timestamp. */
  function SortedRuns(runIds: Option<seq<RunIds.Uuid>>, root: ResultsRoot): seq<RunEntry> {
    SortByTime(Entries(ValidRunIds(EffectiveRunIds(runIds, root), root), root))
  }

  // ---------------------------------------------------------------- staging

  /** A staging directory: the enriched results and the history copied into it. */
  datatype Staged = Staged(results: Dir, history: Dir)

  /** The staging loop: run i of the sorted list is copied with build order i + 1. */
  function Stage(sorted: seq<RunEntry>, root: ResultsRoot, formatDate: int -> string): (m: map<RunIds.Uuid, Staged>)
    ensures forall i :: 0 <= i < |sorted| ==> sorted[i].id in m
  {
    if sorted == [] then map[]
    else
      var n := |sorted|;
      var last := sorted[n - 1];
      var m := Stage(sorted[..n - 1], root, formatDate);
      assert forall i :: 0 <= i < n - 1 ==> sorted[..n - 1][i] == sorted[i];
      m[last.id := StageEntry(root, last, n, formatDate)]
  }

  /** One run's staging directory: its enriched results and, as yet, no history. */
  function StageEntry(root: ResultsRoot, e: RunEntry, buildOrder: int, formatDate: int -> string): (s: Staged)
    ensures s.history == map[]
  {
    Staged(EnrichedCopy(ResultsOf(root, e.id), e.id, buildOrder, e.timestamp, formatDate), map[])
  }

  /** copyHistory: the previous combined report's history goes into the newest run's staging directory. */
  function WithHistory(staging: map<RunIds.Uuid, Staged>, newest: RunIds.Uuid, history: Option<Dir>)
    : (m: map<RunIds.Uuid, Staged>)
    requires newest in staging
    ensures m.Keys == staging.Keys
    ensures forall id :: id in m && id != newest ==> m[id] == staging[id]
    ensures m[newest].results == staging[newest].results
    ensures history.Some? ==> m[newest].history == history.value
    ensures history.None? ==> m[newest] == staging[newest]
  {
    if history.None? then staging else staging[newest := staging[newest].(history := history.value)]
  }

  /** The directories handed to the renderer, in sorted order. */
  function RenderInputs(sorted: seq<RunEntry>, root: ResultsRoot, formatDate: int -> string): (r: seq<Staged>)
    requires sorted != []
    ensures |r| == |sorted|
  {
    var staging := WithHistory(Stage(sorted, root, formatDate), sorted[|sorted| - 1].id, root.combinedHistory);
    seq(|sorted|, i requires 0 <= i < |sorted| => staging[sorted[i].id])
  }

  predicate DistinctIds(s: seq<RunEntry>) {
    forall i, j :: 0 <= i < j < |s| ==> s[i].id != s[j].id
  }

  /** With distinct runs, run i is staged from its own results with build order i + 1 and no history. */
  lemma {:induction false} StagedRun(sorted: seq<RunEntry>, root: ResultsRoot, formatDate: int -> string, i: nat)
    requires DistinctIds(sorted) && i < |sorted|
    ensures Stage(sorted, root, formatDate)[sorted[i].id] == StageEntry(root, sorted[i], i + 1, formatDate)
  {
    var n := |sorted|;
    var prefix := sorted[..n - 1];
    StageUnfold(sorted, root, formatDate);
    if i < n - 1 {
      DistinctPrefix(sorted);
      assert sorted[i] == prefix[i];
      StagedRun(prefix, root, formatDate, i);
      assert sorted[i].id != sorted[n - 1].id;
    }
  }

  lemma StageUnfold(sorted: seq<RunEntry>, root: ResultsRoot, formatDate: int -> string)
    requires sorted != []
    ensures Stage(sorted, root, formatDate) ==
              Stage(sorted[..|sorted| - 1], root, formatDate)[sorted[|sorted| - 1].id :=
                StageEntry(root, sorted[|sorted| - 1], |sorted|, formatDate)]
  {
  }

  lemma DistinctPrefix(s: seq<RunEntry>)
    requires s != [] && DistinctIds(s)
    ensures DistinctIds(s[..|s| - 1])
  {
    var p := s[..|s| - 1];
    forall a, b | 0 <= a < b < |p| ensures p[a].id != p[b].id {
      assert p[a] == s[a] && p[b] == s[b];
    }
  }

  /**
   * What the renderer receives: one staging directory per run in sorted order, run i with
   * build order i + 1, and the old history only in the newest (last) one.
   */
  lemma RenderInputsContents(sorted: seq<RunEntry>, root: ResultsRoot, formatDate: int -> string)
    requires sorted != [] && DistinctIds(sorted)
    ensures var r := RenderInputs(sorted, root, formatDate);
            (forall i :: 0 <= i < |sorted| ==>
               r[i].results == EnrichedCopy(ResultsOf(root, sorted[i].id), sorted[i].id, i + 1, sorted[i].timestamp, formatDate)) &&
            (forall i :: 0 <= i < |sorted| - 1 ==> r[i].history == map[]) &&
            r[|sorted| - 1].history == root.combinedHistory.GetOr(map[])
  {
    var r := RenderInputs(sorted, root, formatDate);
    forall i | 0 <= i < |sorted|
      ensures r[i].results == EnrichedCopy(ResultsOf(root, sorted[i].id), sorted[i].id, i + 1, sorted[i].timestamp, formatDate)
      ensures i < |sorted| - 1 ==> r[i].history == map[]
    {
      StagedRun(sorted, root, formatDate, i);
    }
  }

  /** The staging loop of generateCombinedAllureReport. */
  method StageRuns(sorted: seq<RunEntry>, root: ResultsRoot, formatDate: int -> string)
    returns (staging: map<RunIds.Uuid, Staged>)
    ensures staging == Stage(sorted, root, formatDate)
  {
    staging := map[];
    for i := 0 to |sorted|
      invariant staging == Stage(sorted[..i], root, formatDate)
    {
      assert sorted[..i + 1][..i] == sorted[..i];
      var results := CopyAndEnrichResults(ResultsOf(root, sorted[i].id), sorted[i].id, i + 1, sorted[i].timestamp,
                                          formatDate);
      staging := staging[sorted[i].id := Staged(results, map[])];
    }
    assert sorted[..|sorted|] == sorted;
  }

  /** The staging directories in sorted order, as the renderer receives them. */
  method CollectRendered(sorted: seq<RunEntry>, staging: map<RunIds.Uuid, Staged>) returns (dirs: seq<Staged>)
    requires forall i :: 0 <= i < |sorted| ==> sorted[i].id in staging
    ensures |dirs| == |sorted| && forall i :: 0 <= i < |sorted| ==> dirs[i] == staging[sorted[i].id]
  {
    dirs := [];
    for i := 0 to |sorted|
      invariant |dirs| == i
      invariant forall j :: 0 <= j < i ==> dirs[j] == staging[sorted[j].id]
    {
      dirs := dirs + [staging[sorted[i].id]];
    }
  }

  /**
   * generateCombinedAllureReport: nothing when no run qualifies; otherwise the sorted runs
   * are staged, the renderer gets their directories in order, and the combined URL comes
   * back exactly when the renderer produced index.html. The staging copies are local.
   */
  method GenerateCombinedAllureReport(runIds: Option<seq<RunIds.Uuid>>, root: ResultsRoot,
                                      formatDate: int -> string, render: seq<Staged> -> bool)
    returns (url: Option<string>, rendered: seq<Staged>)
    ensures ValidRunIds(EffectiveRunIds(runIds, root), root) == [] ==> url.None? && rendered == []
    ensures ValidRunIds(EffectiveRunIds(runIds, root), root) != [] ==>
              SortedRuns(runIds, root) != [] &&
              rendered == RenderInputs(SortedRuns(runIds, root), root, formatDate) &&
              url == (if render(rendered) then Some(COMBINED_URL) else None)
  {
    var valid := ValidRunIds(EffectiveRunIds(runIds, root), root);
    if valid == [] {
      return None, [];
    }
    var sorted := SortedRuns(runIds, root);
    assert |multiset(sorted)| == |valid|;
    rendered := StageSorted(sorted, root, formatDate);
    url := if render(rendered) then Some(COMBINED_URL) else None;
  }

  /** The staging loop, copyHistory into the newest run, and the directories in sorted order. */
  method StageSorted(sorted: seq<RunEntry>, root: ResultsRoot, formatDate: int -> string)
    returns (rendered: seq<Staged>)
    requires sorted != []
    ensures rendered == RenderInputs(sorted, root, formatDate)
  {
    var staging := StageRuns(sorted, root, formatDate);
    staging := WithHistory(staging, sorted[|sorted| - 1].id, root.combinedHistory);
    rendered := CollectRendered(sorted, staging);
  }
}
