/** The submitted test-execution request: its validation rules and its builder defaults. */
module ExecutionRequest {
  import opened Wrappers
  import Text

  const ENVIRONMENTS: seq<string> := ["dev", "staging", "prod", "performance"]

  datatype TestExecutionRequest = TestExecutionRequest(
    environment: Option<string>,
    tags: Option<seq<string>>,
    features: Option<seq<string>>,
    parallelCount: Option<int>,
    browser: Option<string>,
    headless: Option<bool>,
    environmentVariables: Option<map<string, string>>,
    retryFailedTests: Option<bool>,
    maxRetries: Option<int>,
    timeoutMinutes: Option<int>,
    webhookUrl: Option<string>,
    priority: Option<string>,
    initiator: Option<string>,
    // read by ZephyrScaleService; see README
    projectKey: Option<string>)

  /** @NotBlank: present and not blank. */
  predicate NotBlank(s: Option<string>) {
    s.Some? && !Text.IsBlank(s.value)
  }

  /** @Pattern("dev|staging|prod|performance"): the whole text is one alternative; null passes. */
  predicate MatchesEnvironmentPattern(s: Option<string>) {
    s.None? || s.value in ENVIRONMENTS
  }

  predicate EnvironmentValid(r: TestExecutionRequest) {
    NotBlank(r.environment) && MatchesEnvironmentPattern(r.environment)
  }

  /** @NotEmpty on tags: present and with at least one element. */
  predicate TagsValid(r: TestExecutionRequest) {
    r.tags.Some? && |r.tags.value| > 0
  }

  predicate IsValid(r: TestExecutionRequest) {
    EnvironmentValid(r) && TagsValid(r)
  }

  /** The environment constraint holds exactly for the four environment names. */
  lemma EnvironmentValidIff(r: TestExecutionRequest)
    ensures EnvironmentValid(r) <==> r.environment.Some? && r.environment.value in ENVIRONMENTS
  {
    if r.environment.Some? && r.environment.value in ENVIRONMENTS {
      var e := r.environment.value;
      assert e[0] != ' ' && e[0] > '\U{20}' && e[0] < '\U{7F}';
      assert !Text.IsWhitespace(e[0]);
    }
  }

  /** A builder setting: either never called, or called with a value (which may be null). */
  datatype Setting<T> = Unset | Given(value: T) {
    function Or(default: T): T {
      if Given? then value else default
    }
  }

  datatype RequestBuilder = RequestBuilder(
    environment: Setting<Option<string>>,
    tags: Setting<Option<seq<string>>>,
    features: Setting<Option<seq<string>>>,
    parallelCount: Setting<Option<int>>,
    browser: Setting<Option<string>>,
    headless: Setting<Option<bool>>,
    environmentVariables: Setting<Option<map<string, string>>>,
    retryFailedTests: Setting<Option<bool>>,
    maxRetries: Setting<Option<int>>,
    timeoutMinutes: Setting<Option<int>>,
    webhookUrl: Setting<Option<string>>,
    priority: Setting<Option<string>>,
    initiator: Setting<Option<string>>,
    projectKey: Setting<Option<string>>)

  /** TestExecutionRequest.builder(): nothing set yet. */
  function NewBuilder(): RequestBuilder {
    RequestBuilder(Unset, Unset, Unset, Unset, Unset, Unset, Unset, Unset, Unset, Unset, Unset, Unset, Unset, Unset)
  }

  /** build(): values given to the builder, else the @Builder.Default value, else null. */
  function Build(b: RequestBuilder): (r: TestExecutionRequest)
    ensures b.parallelCount.Unset? ==> r.parallelCount == Some(5)
    ensures b.headless.Unset? ==> r.headless == Some(true)
    ensures b.retryFailedTests.Unset? ==> r.retryFailedTests == Some(true)
    ensures b.maxRetries.Unset? ==> r.maxRetries == Some(2)
    ensures b.timeoutMinutes.Unset? ==> r.timeoutMinutes == Some(30)
    ensures b.priority.Unset? ==> r.priority == Some("NORMAL")
    ensures b.features.Unset? ==> r.features == None
    ensures b.browser.Unset? ==> r.browser == None
    ensures b.environmentVariables.Unset? ==> r.environmentVariables == None
    ensures b.webhookUrl.Unset? ==> r.webhookUrl == None
    ensures b.initiator.Unset? ==> r.initiator == None
    ensures b.parallelCount.Given? ==> r.parallelCount == b.parallelCount.value
    ensures b.headless.Given? ==> r.headless == b.headless.value
    ensures b.retryFailedTests.Given? ==> r.retryFailedTests == b.retryFailedTests.value
    ensures b.maxRetries.Given? ==> r.maxRetries == b.maxRetries.value
    ensures b.timeoutMinutes.Given? ==> r.timeoutMinutes == b.timeoutMinutes.value
    ensures b.priority.Given? ==> r.priority == b.priority.value
    ensures b.environment.Given? ==> r.environment == b.environment.value
    ensures b.tags.Given? ==> r.tags == b.tags.value
    ensures b.features.Given? ==> r.features == b.features.value
    ensures b.browser.Given? ==> r.browser == b.browser.value
    ensures b.environmentVariables.Given? ==> r.environmentVariables == b.environmentVariables.value
    ensures b.webhookUrl.Given? ==> r.webhookUrl == b.webhookUrl.value
    ensures b.initiator.Given? ==> r.initiator == b.initiator.value
    ensures b.projectKey.Given? ==> r.projectKey == b.projectKey.value
    ensures b.environment.Unset? ==> r.environment == None
    ensures b.tags.Unset? ==> r.tags == None
    ensures b.projectKey.Unset? ==> r.projectKey == None
  {
    TestExecutionRequest(
      b.environment.Or(None),
      b.tags.Or(None),
      b.features.Or(None),
      b.parallelCount.Or(Some(5)),
      b.browser.Or(None),
      b.headless.Or(Some(true)),
      b.environmentVariables.Or(None),
      b.retryFailedTests.Or(Some(true)),
      b.maxRetries.Or(Some(2)),
      b.timeoutMinutes.Or(Some(30)),
      b.webhookUrl.Or(None),
      b.priority.Or(Some("NORMAL")),
      b.initiator.Or(None),
      b.projectKey.Or(None))
  }

  /** A request built from an empty builder carries every default and fails validation. */
  lemma DefaultRequest()
    ensures var r := Build(NewBuilder());
      && r.parallelCount == Some(5) && r.headless == Some(true) && r.retryFailedTests == Some(true)
      && r.maxRetries == Some(2) && r.timeoutMinutes == Some(30) && r.priority == Some("NORMAL")
      && r.features == None && r.browser == None && r.environmentVariables == None
      && r.webhookUrl == None && r.initiator == None
      && !IsValid(r)
  {
  }
}
