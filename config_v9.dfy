/** Version 9 of the user configuration: the workflow settings it adds, their
    defaults, the field-by-field defaults applied when a stored document lacks
    a field, and the migration from a version 8 document.

    JSON parsing is not modelled: a parse is an abstract partial function
    passed in by the caller. */
module ConfigV9 {
  import opened Wrappers

  /** Rust's `u32`. */
  type U32 = x: int | 0 <= x < 0x1_0000_0000

  const DefaultEnableHumanReview: bool := false
  const DefaultMaxAiReviewIterations: U32 := 3
  const DefaultTestingRequiresManualExit: bool := true
  const DefaultAutoStartAiReview: bool := true
  const DefaultGitBranchPrefix: string := "vk"
  const DefaultPrAutoDescriptionEnabled: bool := true
  const DefaultTaskFormAutoStartByDefault: bool := false

  /** The per-project workflow settings. The project record and the task
      service use a struct with the same five fields, so the model uses this
      one type for both. */
  datatype WorkflowConfig = WorkflowConfig(
    enableHumanReview: bool,
    maxAiReviewIterations: U32,
    testingRequiresManualExit: bool,
    autoStartAiReview: bool,
    aiReviewPromptTemplate: Option<string>)

  /** `WorkflowConfig::default()`. */
  function DefaultWorkflowConfig(): (c: WorkflowConfig)
    ensures !c.enableHumanReview && c.testingRequiresManualExit && c.autoStartAiReview
    ensures c.maxAiReviewIterations == 3 && c.aiReviewPromptTemplate == None
  {
    WorkflowConfig(DefaultEnableHumanReview, DefaultMaxAiReviewIterations,
                   DefaultTestingRequiresManualExit, DefaultAutoStartAiReview, None)
  }

  /** A stored workflow section as it was read: `None` for a field the
      document does not contain. The template is `Some(None)` for an explicit
      JSON null. */
  datatype WorkflowDocument = WorkflowDocument(
    enableHumanReview: Option<bool>,
    maxAiReviewIterations: Option<U32>,
    testingRequiresManualExit: Option<bool>,
    autoStartAiReview: Option<bool>,
    aiReviewPromptTemplate: Option<Option<string>>)

  const EmptyWorkflowDocument := WorkflowDocument(None, None, None, None, None)

  /** Deserialising a workflow section: each missing field takes its own
      serde default, whatever the other fields hold. */
  function WorkflowFromDocument(d: WorkflowDocument): (c: WorkflowConfig)
    ensures d.enableHumanReview.Some? ==> c.enableHumanReview == d.enableHumanReview.value
    ensures d.enableHumanReview.None? ==> c.enableHumanReview == DefaultWorkflowConfig().enableHumanReview
    ensures d.maxAiReviewIterations.Some? ==> c.maxAiReviewIterations == d.maxAiReviewIterations.value
    ensures d.maxAiReviewIterations.None? ==> c.maxAiReviewIterations == DefaultWorkflowConfig().maxAiReviewIterations
    ensures d.testingRequiresManualExit.Some? ==> c.testingRequiresManualExit == d.testingRequiresManualExit.value
    ensures d.testingRequiresManualExit.None? ==> c.testingRequiresManualExit == DefaultWorkflowConfig().testingRequiresManualExit
    ensures d.autoStartAiReview.Some? ==> c.autoStartAiReview == d.autoStartAiReview.value
    ensures d.autoStartAiReview.None? ==> c.autoStartAiReview == DefaultWorkflowConfig().autoStartAiReview
    ensures d.aiReviewPromptTemplate.Some? ==> c.aiReviewPromptTemplate == d.aiReviewPromptTemplate.value
    ensures d.aiReviewPromptTemplate.None? ==> c.aiReviewPromptTemplate == None
  {
    WorkflowConfig(
      d.enableHumanReview.GetOr(DefaultEnableHumanReview),
      d.maxAiReviewIterations.GetOr(DefaultMaxAiReviewIterations),
      d.testingRequiresManualExit.GetOr(DefaultTestingRequiresManualExit),
      d.autoStartAiReview.GetOr(DefaultAutoStartAiReview),
      d.aiReviewPromptTemplate.GetOr(None))
  }

  /** The `workflow` section of a configuration document: a missing section
      is `WorkflowConfig::default()`. */
  function WorkflowSection(section: Option<WorkflowDocument>): (c: WorkflowConfig)
    ensures section.None? ==> c == DefaultWorkflowConfig()
    ensures section.Some? ==> c == WorkflowFromDocument(section.value)
  {
    match section
    case None => DefaultWorkflowConfig()
    case Some(d) => WorkflowFromDocument(d)
  }

  /** An empty workflow section and a missing one give the same settings:
      the serde field defaults agree with `WorkflowConfig::default()`. */
  lemma EmptySectionIsDefault()
    ensures WorkflowSection(Some(EmptyWorkflowDocument)) == WorkflowSection(None)
  {
  }

  /** The structured version 8 settings (theme, notifications, editor, ...)
      carried over unchanged; their inner shape belongs to the version 8
      schema, which is not part of this model. */
  datatype Section = DefaultSection | CustomSection(json: string)

  /** Theme choice: `System` is the one the default configuration names. */
  datatype ThemeMode = System | NamedTheme(name: string)

  datatype ExecutorProfileId = ExecutorProfileId(executor: string, variant: Option<string>)

  /** A version 8 configuration, as the version 8 loader returns it. */
  datatype V8Config = V8Config(
    configVersion: string,
    theme: ThemeMode,
    executorProfile: ExecutorProfileId,
    disclaimerAcknowledged: bool,
    onboardingAcknowledged: bool,
    notifications: Section,
    editor: Section,
    github: Section,
    analyticsEnabled: bool,
    workspaceDir: Option<string>,
    lastAppVersion: Option<string>,
    showReleaseNotes: bool,
    language: Section,
    gitBranchPrefix: string,
    showcases: Section,
    prAutoDescriptionEnabled: bool,
    prAutoDescriptionPrompt: Option<string>,
    taskFormAutoStartByDefault: bool)

  /** A version 9 configuration: the version 8 fields plus `workflow`. */
  datatype Config = Config(
    configVersion: string,
    theme: ThemeMode,
    executorProfile: ExecutorProfileId,
    disclaimerAcknowledged: bool,
    onboardingAcknowledged: bool,
    notifications: Section,
    editor: Section,
    github: Section,
    analyticsEnabled: bool,
    workspaceDir: Option<string>,
    lastAppVersion: Option<string>,
    showReleaseNotes: bool,
    language: Section,
    gitBranchPrefix: string,
    showcases: Section,
    prAutoDescriptionEnabled: bool,
    prAutoDescriptionPrompt: Option<string>,
    taskFormAutoStartByDefault: bool,
    workflow: WorkflowConfig)

  /** The fields a version 9 configuration shares with version 8, other than
      the version tag, read back as a version 8 value. */
  function SharedFields(c: Config, version: string): V8Config {
    V8Config(version, c.theme, c.executorProfile, c.disclaimerAcknowledged,
             c.onboardingAcknowledged, c.notifications, c.editor, c.github,
             c.analyticsEnabled, c.workspaceDir, c.lastAppVersion, c.showReleaseNotes,
             c.language, c.gitBranchPrefix, c.showcases, c.prAutoDescriptionEnabled,
             c.prAutoDescriptionPrompt, c.taskFormAutoStartByDefault)
  }

  /** `Config::default()`. */
  function DefaultConfig(): (c: Config)
    ensures c.configVersion == "v9"
    ensures c.workflow == DefaultWorkflowConfig()
    ensures c.executorProfile == ExecutorProfileId("CLAUDE_CODE", None)
    ensures c.analyticsEnabled && !c.disclaimerAcknowledged && !c.onboardingAcknowledged
    ensures c.gitBranchPrefix == "vk"
  {
    Config("v9", System, ExecutorProfileId("CLAUDE_CODE", None), false, false,
           DefaultSection, DefaultSection, DefaultSection, true, None, None, false,
           DefaultSection, DefaultGitBranchPrefix, DefaultSection,
           DefaultPrAutoDescriptionEnabled, None, DefaultTaskFormAutoStartByDefault,
           DefaultWorkflowConfig())
  }

  /** `Config::from_v8_config`: tags the result "v9", gives it the default
      workflow and carries every other field over unchanged. */
  function FromV8Config(v8: V8Config): (c: Config)
    ensures c.configVersion == "v9"
    ensures c.workflow == DefaultWorkflowConfig()
    ensures SharedFields(c, v8.configVersion) == v8
  {
    Config("v9", v8.theme, v8.executorProfile, v8.disclaimerAcknowledged,
           v8.onboardingAcknowledged, v8.notifications, v8.editor, v8.github,
           v8.analyticsEnabled, v8.workspaceDir, v8.lastAppVersion, v8.showReleaseNotes,
           v8.language, v8.gitBranchPrefix, v8.showcases, v8.prAutoDescriptionEnabled,
           v8.prAutoDescriptionPrompt, v8.taskFormAutoStartByDefault,
           DefaultWorkflowConfig())
  }

  /** `Config::from_previous_version`: the raw text goes through the version 8
      loader (`loadV8`, itself total) and is then upgraded. It never fails. */
  function FromPreviousVersion(raw: string, loadV8: string -> V8Config): (r: Result<Config, string>)
    ensures r.Success?
    ensures r.value.configVersion == "v9"
    ensures SharedFields(r.value, loadV8(raw).configVersion) == loadV8(raw)
  {
    Success(FromV8Config(loadV8(raw)))
  }

  /** True when `parseV9` reads `raw` as a configuration tagged "v9". */
  predicate IsCurrentDocument(raw: string, parseV9: string -> Option<Config>) {
    parseV9(raw).Some? && parseV9(raw).value.configVersion == "v9"
  }

  /** `impl From<String> for Config`: a document that parses as a version 9
      configuration tagged "v9" is kept as it is; anything else is migrated
      from version 8. The fallback to `Config::default()` is kept as written,
      although `FromPreviousVersion` never fails. */
  function FromString(raw: string, parseV9: string -> Option<Config>, loadV8: string -> V8Config): (c: Config)
    ensures c.configVersion == "v9"
    ensures IsCurrentDocument(raw, parseV9) ==> c == parseV9(raw).value
    ensures !IsCurrentDocument(raw, parseV9) ==> c == FromV8Config(loadV8(raw))
  {
    if IsCurrentDocument(raw, parseV9) then
      parseV9(raw).value
    else
      match FromPreviousVersion(raw, loadV8)
      case Success(config) => config
      case Failure(_) => DefaultConfig()
  }

  /** Loading is idempotent on current documents: when the stored text
      reparses to the configuration it was loaded as, loading it again gives
      that same configuration, whichever path the first load took. */
  lemma FromStringStable(raw: string, raw': string, parseV9: string -> Option<Config>, loadV8: string -> V8Config)
    requires parseV9(raw') == Some(FromString(raw, parseV9, loadV8))
    ensures FromString(raw', parseV9, loadV8) == FromString(raw, parseV9, loadV8)
  {
  }
}
