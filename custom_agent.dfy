/** A user-defined coding agent that runs a custom command on top of one of
    the built-in agents: the command line it assembles (default command and
    the flags its base agent needs), the check that it is not based on
    another custom agent, its availability, and which log processors read
    its output.

    The `CommandBuilder` is its base command and parameter list; the
    override step that follows (`apply_overrides`) is a parameter. */
module CustomAgentCommand {
  import opened Wrappers

  datatype ClaudeCodeSettings = ClaudeCodeSettings(dangerouslySkipPermissions: Option<bool>, model: Option<string>)
  datatype YoloSettings = YoloSettings(yolo: Option<bool>)
  datatype CodexSettings = CodexSettings(sandbox: Option<string>)
  datatype Autonomy = Normal | Low | Medium | High | SkipPermissionsUnsafe
  datatype DroidSettings = DroidSettings(autonomy: Autonomy, model: Option<string>)
  datatype CursorSettings = CursorSettings(force: Option<bool>, model: Option<string>)
  datatype OpencodeSettings = OpencodeSettings(autoApprove: bool)
  datatype CopilotSettings = CopilotSettings(allowAllTools: Option<bool>)

  /** The command overrides a custom agent carries; `baseCommandOverride`
      replaces the default command. */
  datatype CmdOverrides = CmdOverrides(baseCommandOverride: Option<string>, additionalParams: Option<seq<string>>)

  /** The coding agents, each with the settings the custom agent reads. */
  datatype CodingAgent =
    | ClaudeCode(claude: ClaudeCodeSettings)
    | Amp
    | Gemini(gemini: YoloSettings)
    | Codex(codex: CodexSettings)
    | Opencode(opencode: OpencodeSettings)
    | CursorAgent(cursor: CursorSettings)
    | QwenCode(qwen: YoloSettings)
    | Copilot(copilot: CopilotSettings)
    | Droid(droid: DroidSettings)
    | Custom(custom: CustomAgent)

  datatype CustomAgent = CustomAgent(name: Option<string>, baseAgent: Option<CodingAgent>, cmd: CmdOverrides)

  datatype CommandBuilder = CommandBuilder(base: string, params: seq<string>)

  /** `CommandBuilder::extend_params`. */
  function ExtendParams(b: CommandBuilder, more: seq<string>): CommandBuilder {
    CommandBuilder(b.base, b.params + more)
  }

  /** A base agent the custom agent can run on: any agent but a custom one. */
  predicate ValidBase(base: Option<CodingAgent>) {
    base.None? || !base.value.Custom?
  }

  /** `deserialize_base_agent`: the parsed base agent is kept unless it is
      itself a custom agent. */
  function DeserializeBaseAgent(parsed: Option<CodingAgent>): (r: Result<Option<CodingAgent>, string>)
    ensures r.Success? <==> ValidBase(parsed)
    ensures r.Success? ==> r.value == parsed
    ensures r.Failure? ==> r.error == "Custom agent cannot be based on another Custom agent"
  {
    if parsed.Some? && parsed.value.Custom? then
      Failure("Custom agent cannot be based on another Custom agent")
    else
      Success(parsed)
  }

  const Npx: string := "npx -y "
  const ClaudeCodeCommand: string := Npx + "@anthropic-ai/claude-code@2.0.76"

  /** `default_base_command`: the npx command of the base agent; with no base
      agent, the Claude Code command. */
  function DefaultBaseCommand(base: Option<CodingAgent>): (r: string)
    requires ValidBase(base)
    ensures base.None? || base.value.ClaudeCode? <==> r == ClaudeCodeCommand
    ensures |r| > |Npx| && r[..|Npx|] == Npx
  {
    match base
    case None => ClaudeCodeCommand
    case Some(ClaudeCode(_)) => ClaudeCodeCommand
    case Some(Amp) => Npx + "@sourcegraph/amp@0.0.1764777697-g907e30"
    case Some(Gemini(_)) => Npx + "@google/gemini-cli@latest"
    case Some(Codex(_)) => Npx + "@openai/codex@latest"
    case Some(Opencode(_)) => Npx + "@opencodeai/codex@latest"
    case Some(CursorAgent(_)) => Npx + "@cursor cursor-agent"
    case Some(QwenCode(_)) => Npx + "@qwen/qwen-code@latest"
    case Some(Copilot(_)) => Npx + "@copilot/copilot-cli@latest"
    case Some(Droid(_)) => Npx + "@anthropic/droid@latest"
  }

  /** The flags Claude Code always needs. */
  const ClaudeFlags: seq<string> := ["-p", "--verbose", "--output-format=stream-json", "--input-format=stream-json",
                                     "--include-partial-messages", "--disallowedTools=AskUserQuestion"]

  /** `--model m` when a model is set. */
  function ModelFlags(model: Option<string>): seq<string> {
    if model.Some? then ["--model", model.value] else []
  }

  /** The flag that turns on an optional switch, when it is `Some(true)`. */
  function SwitchFlag(setting: Option<bool>, flag: string): seq<string> {
    if setting == Some(true) then [flag] else []
  }

  /** The Droid autonomy flags. */
  function AutonomyFlags(a: Autonomy): (r: seq<string>)
    ensures a == Normal <==> r == []
    ensures a == SkipPermissionsUnsafe <==> r == ["--skip-permissions-unsafe"]
    ensures a in {Low, Medium, High} <==> |r| == 2 && r[0] == "--auto"
  {
    match a
    case Normal => []
    case Low => ["--auto", "low"]
    case Medium => ["--auto", "medium"]
    case High => ["--auto", "high"]
    case SkipPermissionsUnsafe => ["--skip-permissions-unsafe"]
  }

  /** The parameters the base agent requires, in the order they are added. */
  function RequiredParams(base: Option<CodingAgent>): seq<string>
    requires ValidBase(base)
  {
    match base
    case None => ClaudeFlags + ["--dangerously-skip-permissions"]
    case Some(ClaudeCode(c)) =>
      ClaudeFlags + SwitchFlag(c.dangerouslySkipPermissions, "--dangerously-skip-permissions") + ModelFlags(c.model)
    case Some(Amp) => ["--output-format=stream-json", "--verbose"]
    case Some(Gemini(g)) => SwitchFlag(g.yolo, "--yolo")
    case Some(Codex(c)) => if c.sandbox.Some? then ["--sandbox", c.sandbox.value] else []
    case Some(Droid(d)) => ["--output-format", "stream-json"] + AutonomyFlags(d.autonomy) + ModelFlags(d.model)
    case Some(CursorAgent(c)) => SwitchFlag(c.force, "--force") + ModelFlags(c.model)
    case Some(QwenCode(q)) => SwitchFlag(q.yolo, "--yolo")
    case Some(Opencode(o)) => if o.autoApprove then ["--auto-approve"] else []
    case Some(Copilot(c)) => SwitchFlag(c.allowAllTools, "--allow-all-tools")
  }

  /** A setting value that does not look like a flag. */
  predicate PlainValue(v: Option<string>) {
    v.None? || v.value == [] || v.value[0] != '-'
  }

  /** Models and sandbox modes that do not look like flags. */
  predicate PlainValues(base: Option<CodingAgent>) {
    match base
    case Some(ClaudeCode(c)) => PlainValue(c.model)
    case Some(Codex(c)) => PlainValue(c.sandbox)
    case Some(Droid(d)) => PlainValue(d.model)
    case Some(CursorAgent(c)) => PlainValue(c.model)
    case _ => true
  }

  /** The required parameters as the source promises them: the Claude flags
      first for Claude Code and for no base agent; the permission skip for no
      base agent and for Claude Code exactly when it is `Some(true)`; `--yolo`
      for Gemini and Qwen Code exactly when it is `Some(true)`; for Droid the
      stream-json output first and then the autonomy flags. */
  lemma RequiredParamsProperties(base: Option<CodingAgent>)
    requires ValidBase(base) && PlainValues(base)
    ensures base.None? || base.value.ClaudeCode? ==> RequiredParams(base)[..|ClaudeFlags|] == ClaudeFlags
    ensures base.None? ==> "--dangerously-skip-permissions" in RequiredParams(base)
    ensures base.Some? && base.value.ClaudeCode? ==>
              && ("--dangerously-skip-permissions" in RequiredParams(base) <==> base.value.claude.dangerouslySkipPermissions == Some(true))
              && ("--model" in RequiredParams(base) <==> base.value.claude.model.Some?)
    ensures base.Some? && (base.value.Gemini? || base.value.QwenCode?) ==>
              ("--yolo" in RequiredParams(base) <==>
                 (if base.value.Gemini? then base.value.gemini.yolo else base.value.qwen.yolo) == Some(true))
    ensures base.Some? && base.value.Droid? ==>
              && RequiredParams(base)[..2] == ["--output-format", "stream-json"]
              && RequiredParams(base)[2..2 + |AutonomyFlags(base.value.droid.autonomy)|] == AutonomyFlags(base.value.droid.autonomy)
  {
    match base {
      case None =>
        assert RequiredParams(base)[|ClaudeFlags|] == "--dangerously-skip-permissions";
      case Some(ClaudeCode(c)) =>
        var p := RequiredParams(base);
        var skip := SwitchFlag(c.dangerouslySkipPermissions, "--dangerously-skip-permissions");
        assert p == ClaudeFlags + skip + ModelFlags(c.model);
        if c.dangerouslySkipPermissions == Some(true) {
          assert p[|ClaudeFlags|] == "--dangerously-skip-permissions";
        }
        if c.model.Some? {
          assert p[|ClaudeFlags| + |skip|] == "--model";
        }
      case Some(Droid(d)) =>
        var p := RequiredParams(base);
        assert p == ["--output-format", "stream-json"] + AutonomyFlags(d.autonomy) + ModelFlags(d.model);
      case Some(Gemini(g)) =>
      case Some(QwenCode(q)) =>
      case Some(_) =>
    }
  }

  /** `build_command_builder` before the overrides: the base command (the
      override when set, otherwise the default) and the required parameters,
      added one group at a time. */
  method RequiredCommand(agent: CustomAgent) returns (builder: CommandBuilder)
    requires ValidBase(agent.baseAgent)
    ensures builder.base == agent.cmd.baseCommandOverride.GetOr(DefaultBaseCommand(agent.baseAgent))
    ensures agent.cmd.baseCommandOverride.None? ==> builder.base == DefaultBaseCommand(agent.baseAgent)
    ensures builder.params == RequiredParams(agent.baseAgent)
  {
    var base := if agent.cmd.baseCommandOverride.Some? then agent.cmd.baseCommandOverride.value
                else DefaultBaseCommand(agent.baseAgent);
    builder := CommandBuilder(base, []);
    builder := AddRequiredParams(builder, agent.baseAgent);
  }

  /** The flag groups of one base agent, added to `builder` in order. */
  method AddRequiredParams(b: CommandBuilder, baseAgent: Option<CodingAgent>) returns (builder: CommandBuilder)
    requires ValidBase(baseAgent)
    ensures builder == CommandBuilder(b.base, b.params + RequiredParams(baseAgent))
  {
    builder := b;
    match baseAgent {
      case None =>
        builder := AddClaudeParams(builder, None, None);
        assert RequiredParams(baseAgent) == ClaudeFlags + SwitchFlag(Some(true), "--dangerously-skip-permissions") + ModelFlags(None);
      case Some(ClaudeCode(c)) =>
        builder := AddClaudeParams(builder, Some(c.dangerouslySkipPermissions.GetOr(false)), c.model);
        assert SwitchFlag(Some(c.dangerouslySkipPermissions.GetOr(false)), "--dangerously-skip-permissions")
            == SwitchFlag(c.dangerouslySkipPermissions, "--dangerously-skip-permissions");
      case Some(Amp) =>
        builder := ExtendParams(builder, ["--output-format=stream-json", "--verbose"]);
      case Some(Gemini(g)) =>
        if g.yolo.GetOr(false) {
          builder := ExtendParams(builder, ["--yolo"]);
        }
      case Some(Codex(c)) =>
        if c.sandbox.Some? {
          builder := ExtendParams(builder, ["--sandbox", c.sandbox.value]);
        }
      case Some(Droid(d)) =>
        builder := AddDroidParams(builder, d);
      case Some(CursorAgent(c)) =>
        if c.force.GetOr(false) {
          builder := ExtendParams(builder, ["--force"]);
        }
        builder := AddModel(builder, c.model);
        assert builder.params == b.params + SwitchFlag(c.force, "--force") + ModelFlags(c.model);
      case Some(QwenCode(q)) =>
        if q.yolo.GetOr(false) {
          builder := ExtendParams(builder, ["--yolo"]);
        }
      case Some(Opencode(o)) =>
        if o.autoApprove {
          builder := ExtendParams(builder, ["--auto-approve"]);
        }
      case Some(Copilot(c)) =>
        if c.allowAllTools.GetOr(false) {
          builder := ExtendParams(builder, ["--allow-all-tools"]);
        }
    }
  }

  /** `--model m`, when a model is set. */
  method AddModel(b: CommandBuilder, model: Option<string>) returns (builder: CommandBuilder)
    ensures builder == CommandBuilder(b.base, b.params + ModelFlags(model))
  {
    builder := b;
    if model.Some? {
      builder := ExtendParams(builder, ["--model", model.value]);
    }
  }

  /** The Claude Code flags: `skip` is whether permissions are skipped
      (`None`: no base agent, where they are). */
  method AddClaudeParams(b: CommandBuilder, skip: Option<bool>, model: Option<string>) returns (builder: CommandBuilder)
    ensures builder == CommandBuilder(b.base, b.params + ClaudeFlags
                                      + SwitchFlag(Some(skip.GetOr(true)), "--dangerously-skip-permissions")
                                      + ModelFlags(model))
  {
    builder := ExtendParams(b, ["-p"]);
    builder := ExtendParams(builder, ["--verbose", "--output-format=stream-json", "--input-format=stream-json",
                                      "--include-partial-messages", "--disallowedTools=AskUserQuestion"]);
    assert builder.params == b.params + ClaudeFlags;
    if skip.GetOr(true) {
      builder := ExtendParams(builder, ["--dangerously-skip-permissions"]);
    }
    builder := AddModel(builder, model);
  }

  /** The Droid flags: stream-json output, the autonomy level, the model. */
  method AddDroidParams(b: CommandBuilder, d: DroidSettings) returns (builder: CommandBuilder)
    ensures builder == CommandBuilder(b.base, b.params + ["--output-format", "stream-json"]
                                      + AutonomyFlags(d.autonomy) + ModelFlags(d.model))
  {
    builder := ExtendParams(b, ["--output-format", "stream-json"]);
    match d.autonomy {
      case Normal =>
      case Low => builder := ExtendParams(builder, ["--auto", "low"]);
      case Medium => builder := ExtendParams(builder, ["--auto", "medium"]);
      case High => builder := ExtendParams(builder, ["--auto", "high"]);
      case SkipPermissionsUnsafe => builder := ExtendParams(builder, ["--skip-permissions-unsafe"]);
    }
    builder := AddModel(builder, d.model);
  }

  /** `build_command_builder`: the required command, then the agent's own
      overrides (`applyOverrides`, whose workings are not modelled). */
  method BuildCommandBuilder(agent: CustomAgent, applyOverrides: (CommandBuilder, CmdOverrides) -> CommandBuilder)
    returns (builder: CommandBuilder)
    requires ValidBase(agent.baseAgent)
    ensures builder == applyOverrides(
              CommandBuilder(agent.cmd.baseCommandOverride.GetOr(DefaultBaseCommand(agent.baseAgent)),
                             RequiredParams(agent.baseAgent)),
              agent.cmd)
  {
    var required := RequiredCommand(agent);
    builder := applyOverrides(required, agent.cmd);
  }

  datatype AvailabilityInfo = LoginDetected(lastAuthTimestamp: int) | InstallationFound | NotFound

  /** `get_availability_info`: an override command that resolves to an
      executable (`overrideResolves`) means the installation is found;
      otherwise the base agent's own availability (`baseAvailability`)
      decides, and with no base agent nothing is found. */
  function GetAvailabilityInfo(agent: CustomAgent, overrideResolves: bool,
                               baseAvailability: CodingAgent -> AvailabilityInfo): (r: AvailabilityInfo)
    ensures agent.cmd.baseCommandOverride.Some? && overrideResolves ==> r == InstallationFound
    ensures !(agent.cmd.baseCommandOverride.Some? && overrideResolves) && agent.baseAgent.Some? ==>
              r == baseAvailability(agent.baseAgent.value)
    ensures !(agent.cmd.baseCommandOverride.Some? && overrideResolves) && agent.baseAgent.None? ==> r == NotFound
  {
    if agent.cmd.baseCommandOverride.Some? && overrideResolves then InstallationFound
    else
      match agent.baseAgent
      case Some(a) => baseAvailability(a)
      case None => NotFound
  }

  /** The log processors a custom agent's output goes through. */
  datatype LogProcessor = ClaudeProcessor | AcpProcessor | CodexProcessor | DroidProcessor | StderrProcessor

  /** `normalize_logs`: the processors for the base agent's output format, in
      the order they are started. */
  function NormalizeLogs(base: Option<CodingAgent>): (r: seq<LogProcessor>)
    requires ValidBase(base)
    ensures 1 <= |r| <= 2
    ensures StderrProcessor in r <==> !(base.Some? && (base.value.Gemini? || base.value.Opencode? || base.value.QwenCode? || base.value.Codex?))
    ensures ClaudeProcessor in r <==> base.None? || base.value.ClaudeCode? || base.value.Amp?
  {
    match base
    case None => [ClaudeProcessor, StderrProcessor]
    case Some(ClaudeCode(_)) => [ClaudeProcessor, StderrProcessor]
    case Some(Amp) => [ClaudeProcessor, StderrProcessor]
    case Some(Gemini(_)) => [AcpProcessor]
    case Some(Opencode(_)) => [AcpProcessor]
    case Some(QwenCode(_)) => [AcpProcessor]
    case Some(Codex(_)) => [CodexProcessor]
    case Some(Droid(_)) => [DroidProcessor, StderrProcessor]
    case Some(CursorAgent(_)) => [StderrProcessor]
    case Some(Copilot(_)) => [StderrProcessor]
  }

  /** The command and the log processing agree: the Claude processor reads
      the output exactly of the agents whose required flags ask for
      `--output-format=stream-json`, and the Droid processor exactly of the
      agent that asks for `--output-format stream-json`. */
  lemma OutputFormatMatchesProcessor(base: Option<CodingAgent>)
    requires ValidBase(base) && PlainValues(base)
    ensures ClaudeProcessor in NormalizeLogs(base) <==> "--output-format=stream-json" in RequiredParams(base)
    ensures DroidProcessor in NormalizeLogs(base) <==> "--output-format" in RequiredParams(base)
  {
    var p := RequiredParams(base);
    match base {
      case None =>
        assert p[2] == "--output-format=stream-json";
      case Some(ClaudeCode(c)) =>
        assert p[2] == "--output-format=stream-json";
        var skip := SwitchFlag(c.dangerouslySkipPermissions, "--dangerously-skip-permissions");
        assert p == ClaudeFlags + skip + ModelFlags(c.model);
        if c.model.Some? {
          assert p[|ClaudeFlags| + |skip| + 1] == c.model.value;
        }
      case Some(Amp) =>
        assert p[0] == "--output-format=stream-json";
      case Some(Droid(d)) =>
        assert p[0] == "--output-format";
        assert p == ["--output-format", "stream-json"] + AutonomyFlags(d.autonomy) + ModelFlags(d.model);
        if d.model.Some? {
          assert p[|p| - 1] == d.model.value;
        }
      case Some(CursorAgent(c)) =>
        assert p == SwitchFlag(c.force, "--force") + ModelFlags(c.model);
        if c.model.Some? {
          assert p[|p| - 1] == c.model.value;
        }
      case Some(Codex(c)) =>
        if c.sandbox.Some? {
          assert p[1] == c.sandbox.value;
        }
      case Some(_) =>
    }
  }
}
