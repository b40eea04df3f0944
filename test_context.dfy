/**
 * The per-run output context: a run id and the run's output directory, set by Init and
 * removed by Clear. The Java class keeps both in static inheritable thread-locals; here the
 * context is one explicit object.
 */
module TestContext {
  import opened Wrappers
  import Text

  /** A file-system path as its list of name segments. */
  datatype Path = Path(segments: seq<string>) {
    /** Path.resolve(name) */
    function Resolve(name: string): (r: Path)
      ensures r.segments == segments + [name]
    {
      Path(segments + [name])
    }

    /** Path.toString with '/' as the separator. */
    function ToString(): string {
      Text.Join(segments, "/")
    }

    predicate IsPrefixOf(other: Path) {
      segments <= other.segments
    }
  }

  const DEFAULT_RESULTS_DIR := "test-results"
  const NOT_INITIALIZED := "TestContext not initialized -- call TestContext.init(runId) first"
  const SCREENSHOTS := "screenshots"
  const AXE_RESULT := "axe-result"
  const ALLURE_RESULTS := "allure-results"
  const CUCUMBER_REPORTS := "cucumber-reports"

  /**
   * resolveBasePath: the TEST_RESULTS_PATH environment variable when set and not blank,
   * else the test.results.path system property when set and not blank, else "test-results".
   */
  function ResolveBasePath(envVar: Option<string>, sysProp: Option<string>): (r: Path)
    ensures envVar.Some? && !Text.IsBlank(envVar.value) ==> r == Path([envVar.value])
    ensures (envVar.None? || Text.IsBlank(envVar.value)) ==>
              (sysProp.Some? && !Text.IsBlank(sysProp.value) ==> r == Path([sysProp.value]))
    ensures (envVar.None? || Text.IsBlank(envVar.value)) ==>
              (sysProp.None? || Text.IsBlank(sysProp.value) ==> r == Path([DEFAULT_RESULTS_DIR]))
  {
    if envVar.Some? && !Text.IsBlank(envVar.value) then Path([envVar.value])
    else if sysProp.Some? && !Text.IsBlank(sysProp.value) then Path([sysProp.value])
    else Path([DEFAULT_RESULTS_DIR])
  }

  class RunContext {
    var runId: Option<string>
    var outputBase: Option<Path>

    /** Both values are present together, and the output base ends in the run id. */
    ghost predicate Valid()
      reads this
    {
      && (runId.Some? <==> outputBase.Some?)
      && (runId.Some? ==>
            outputBase.value.segments != [] &&
            outputBase.value.segments[|outputBase.value.segments| - 1] == runId.value)
    }

    /** The state of a thread that has not called init. */
    constructor ()
      ensures Valid() && !IsInitialized()
      ensures runId == None && outputBase == None
    {
      runId := None;
      outputBase := None;
    }

    /** init(runId): sets the run id and the output base basePath/runId, replacing any earlier values. */
    method Init(id: string, envVar: Option<string>, sysProp: Option<string>)
      modifies this
      ensures Valid() && IsInitialized()
      ensures runId == Some(id)
      ensures outputBase == Some(ResolveBasePath(envVar, sysProp).Resolve(id))
    {
      runId := Some(id);
      outputBase := Some(ResolveBasePath(envVar, sysProp).Resolve(id));
    }

    /** clear(): removes both values. */
    method Clear()
      modifies this
      ensures Valid() && !IsInitialized()
      ensures runId == None && outputBase == None
    {
      runId := None;
      outputBase := None;
    }

    /** isInitialized(): a run id is present. */
    predicate IsInitialized()
      reads this
      ensures Valid() ==> (IsInitialized() <==> outputBase.Some?)
    {
      runId.Some?
    }

    /** getRunId(): the run id, or IllegalStateException before init and after clear. */
    method GetRunId() returns (r: Result<string>)
      ensures IsInitialized() ==> r == Ok(runId.value)
      ensures !IsInitialized() ==> r == Err(IllegalState(NOT_INITIALIZED))
    {
      if runId.Some? {
        r := Ok(runId.value);
      } else {
        r := Err(IllegalState(NOT_INITIALIZED));
      }
    }

    /** getOutputBase(): the output base, or IllegalStateException when absent. */
    method GetOutputBase() returns (r: Result<Path>)
      requires Valid()
      ensures IsInitialized() <==> r.Ok?
      ensures r.Ok? ==> r.value == outputBase.value
      ensures r.Ok? ==> r.value.segments[|r.value.segments| - 1] == runId.value
      ensures r.Err? ==> r.error == IllegalState(NOT_INITIALIZED)
    {
      if outputBase.Some? {
        r := Ok(outputBase.value);
      } else {
        r := Err(IllegalState(NOT_INITIALIZED));
      }
    }

    /** The getters of the four fixed sub-directories: outputBase/name. */
    method SubDir(name: string) returns (r: Result<Path>)
      requires Valid()
      ensures IsInitialized() <==> r.Ok?
      ensures r.Ok? ==> outputBase.value.IsPrefixOf(r.value) && r.value == outputBase.value.Resolve(name)
      ensures r.Err? ==> r.error == IllegalState(NOT_INITIALIZED)
    {
      var base := GetOutputBase();
      if base.Ok? {
        r := Ok(base.value.Resolve(name));
      } else {
        r := Err(base.error);
      }
    }

    method GetScreenshotsDir() returns (r: Result<Path>)
      requires Valid()
      ensures IsInitialized() <==> r.Ok?
      ensures r.Ok? ==> r.value == outputBase.value.Resolve(SCREENSHOTS)
    {
      r := SubDir(SCREENSHOTS);
    }

    method GetAxeResultDir() returns (r: Result<Path>)
      requires Valid()
      ensures IsInitialized() <==> r.Ok?
      ensures r.Ok? ==> r.value == outputBase.value.Resolve(AXE_RESULT)
    {
      r := SubDir(AXE_RESULT);
    }

    method GetAllureResultsDir() returns (r: Result<Path>)
      requires Valid()
      ensures IsInitialized() <==> r.Ok?
      ensures r.Ok? ==> r.value == outputBase.value.Resolve(ALLURE_RESULTS)
    {
      r := SubDir(ALLURE_RESULTS);
    }

    method GetCucumberReportsDir() returns (r: Result<Path>)
      requires Valid()
      ensures IsInitialized() <==> r.Ok?
      ensures r.Ok? ==> r.value == outputBase.value.Resolve(CUCUMBER_REPORTS)
    {
      r := SubDir(CUCUMBER_REPORTS);
    }
  }
}
