/**
 * The service that starts one Cucumber run: label normalisation, the command-line arguments
 * handed to the Cucumber engine, and the per-run context around the engine call.
 */
module CucumberRunner {
  import opened Wrappers
  import Text
  import TestContext

  const EMPTY_LABEL := "label darf nicht leer sein"
  const DEFAULT_FEATURES := "classpath:features"
  const ALLURE_PLUGIN := "io.qameta.allure.cucumber7jvm.AllureCucumber7Jvm"

  /** The record returned to the caller. */
  datatype RunResult = RunResult(runId: string, tags: Option<string>, exitCode: int, outputDir: string)

  /**
   * normalizeLabel: null or blank labels are refused; otherwise the trimmed label, with "@"
   * put in front unless it already starts with one. Only the start is touched.
   */
  function NormalizeLabel(name: Option<string>): (r: Result<string>)
    ensures r.Err? <==> name.None? || Text.IsBlank(name.value)
    ensures r.Err? ==> r.error == IllegalArgument(EMPTY_LABEL)
    ensures r.Ok? ==> Text.StartsWith(r.value, "@") && Text.IsTrimmed(r.value)
    ensures r.Ok? && Text.StartsWith(Text.Trim(name.value), "@") ==> r.value == Text.Trim(name.value)
    ensures r.Ok? && !Text.StartsWith(Text.Trim(name.value), "@") ==> r.value == "@" + Text.Trim(name.value)
  {
    if name.None? || Text.IsBlank(name.value) then Err(IllegalArgument(EMPTY_LABEL))
    else
      var trimmed := Text.Trim(name.value);
      if Text.StartsWith(trimmed, "@") then Ok(trimmed) else Ok("@" + trimmed)
  }

  /** A normalised label is its own normal form. */
  lemma {:induction false} NormalizeLabelIdempotent(name: Option<string>)
    requires NormalizeLabel(name).Ok?
    ensures NormalizeLabel(Some(NormalizeLabel(name).value)) == NormalizeLabel(name)
  {
    LabelIsFixed(NormalizeLabel(name).value);
  }

  /** A trimmed label that starts with "@" is returned as it is. */
  lemma LabelIsFixed(n: string)
    requires Text.StartsWith(n, "@") && Text.IsTrimmed(n)
    ensures NormalizeLabel(Some(n)) == Ok(n)
  {
    assert n[0] == '@';
    assert !Text.IsWhitespace(n[0]);
    assert !Text.IsBlank(n);
    Text.TrimOfTrimmed(n);
  }

  /** The tags executeRun receives from run: normalised when given and not blank, else none. */
  function RunTags(tags: Option<string>): (r: Option<string>)
    ensures tags.None? || Text.IsBlank(tags.value) ==> r.None?
    ensures tags.Some? && !Text.IsBlank(tags.value) ==> r == Some(NormalizeLabel(tags).value)
  {
    if tags.Some? && !Text.IsBlank(tags.value) then Some(NormalizeLabel(tags).value) else None
  }

  /** The fixed head of the argument list: glue package and the four plugins. */
  function FixedArgs(cucumberReports: TestContext.Path): seq<string> {
    ["--glue", "org.example",
     "--plugin", "pretty",
     "--plugin", "json:" + cucumberReports.Resolve("Cucumber.json").ToString(),
     "--plugin", "html:" + cucumberReports.Resolve("Cucumber.html").ToString(),
     "--plugin", ALLURE_PLUGIN]
  }

  /**
   * The argument list executeRun hands to the engine: the fixed head, "--tags t" only for
   * non-blank tags, and last the features path or "classpath:features".
   */
  function CliArgs(cucumberReports: TestContext.Path, tags: Option<string>, features: Option<string>): (r: seq<string>)
    ensures |r| >= 11 && r[..10] == FixedArgs(cucumberReports)
    ensures |r| == 13 <==> tags.Some? && !Text.IsBlank(tags.value)
    ensures |r| == 13 ==> r[10] == "--tags" && r[11] == tags.value
    ensures |r| == 11 || |r| == 13
    ensures features.Some? && !Text.IsBlank(features.value) ==> r[|r| - 1] == features.value
    ensures features.None? || Text.IsBlank(features.value) ==> r[|r| - 1] == DEFAULT_FEATURES
  {
    var tagArgs := if tags.Some? && !Text.IsBlank(tags.value) then ["--tags", tags.value] else [];
    var last := if features.Some? && !Text.IsBlank(features.value) then features.value else DEFAULT_FEATURES;
    FixedArgs(cucumberReports) + tagArgs + [last]
  }

  /**
   * executeRun: initialise the run context, build the arguments step by step, let the engine
   * run, and clear the context again whatever happens. The engine is the function from the
   * argument list to its exit code.
   */
  method ExecuteRun(ctx: TestContext.RunContext, runId: string, tags: Option<string>, features: Option<string>,
                    envVar: Option<string>, sysProp: Option<string>, engine: seq<string> -> int)
    returns (result: RunResult, args: seq<string>)
    modifies ctx
    ensures ctx.Valid() && !ctx.IsInitialized()
    ensures args == CliArgs(TestContext.ResolveBasePath(envVar, sysProp).Resolve(runId).Resolve(TestContext.CUCUMBER_REPORTS), tags, features)
    ensures result == RunResult(runId, tags, engine(args), TestContext.ResolveBasePath(envVar, sysProp).Resolve(runId).ToString())
  {
    ctx.Init(runId, envVar, sysProp);
    var runRoot := ctx.GetOutputBase();
    var cucumberReports := ctx.GetCucumberReportsDir();
    var reports := cucumberReports.value;
    ghost var base := TestContext.ResolveBasePath(envVar, sysProp).Resolve(runId);
    assert runRoot == Ok(base) && reports == base.Resolve(TestContext.CUCUMBER_REPORTS);
    args := BuildArgs(reports, tags, features);
    var exitCode := engine(args);
    result := RunResult(runId, tags, exitCode, runRoot.value.ToString());
    ctx.Clear();
  }

  /** The argument list as executeRun adds it, one argument at a time. */
  method BuildArgs(reports: TestContext.Path, tags: Option<string>, features: Option<string>)
    returns (args: seq<string>)
    ensures args == CliArgs(reports, tags, features)
  {
    args := [];
    args := args + ["--glue"];
    args := args + ["org.example"];
    args := args + ["--plugin"];
    args := args + ["pretty"];
    args := args + ["--plugin"];
    args := args + ["json:" + reports.Resolve("Cucumber.json").ToString()];
    args := args + ["--plugin"];
    args := args + ["html:" + reports.Resolve("Cucumber.html").ToString()];
    args := args + ["--plugin"];
    args := args + [ALLURE_PLUGIN];
    assert args == FixedArgs(reports);
    if tags.Some? && !Text.IsBlank(tags.value) {
      args := args + ["--tags"];
      args := args + [tags.value];
    }
    if features.Some? && !Text.IsBlank(features.value) {
      args := args + [features.value];
    } else {
      args := args + [DEFAULT_FEATURES];
    }
  }

  /** runByLabel(runId, label): an empty label is refused before any run starts. */
  method RunByLabel(ctx: TestContext.RunContext, runId: string, name: Option<string>,
                    envVar: Option<string>, sysProp: Option<string>, engine: seq<string> -> int)
    returns (r: Result<RunResult>)
    modifies ctx
    ensures NormalizeLabel(name).Err? ==> r == Err(NormalizeLabel(name).error) && unchanged(ctx)
    ensures NormalizeLabel(name).Ok? ==>
              r.Ok? && r.value.tags == Some(NormalizeLabel(name).value) && r.value.runId == runId &&
              !ctx.IsInitialized()
  {
    var normalized := NormalizeLabel(name);
    if normalized.Err? {
      return Err(normalized.error);
    }
    var result, _ := ExecuteRun(ctx, runId, Some(normalized.value), None, envVar, sysProp, engine);
    r := Ok(result);
  }

  /** run(runId, tags, features): blank or missing tags run everything and never throw. */
  method Run(ctx: TestContext.RunContext, runId: string, tags: Option<string>, features: Option<string>,
             envVar: Option<string>, sysProp: Option<string>, engine: seq<string> -> int)
    returns (result: RunResult, args: seq<string>)
    modifies ctx
    ensures result.tags == RunTags(tags) && result.runId == runId
    ensures args == CliArgs(TestContext.ResolveBasePath(envVar, sysProp).Resolve(runId).Resolve(TestContext.CUCUMBER_REPORTS), RunTags(tags), features)
    ensures !ctx.IsInitialized()
  {
    result, args := ExecuteRun(ctx, runId, RunTags(tags), features, envVar, sysProp, engine);
  }
}
