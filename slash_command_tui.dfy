/**
 * The slash commands of the first terminal interface: their popup order,
 * their spellings, which of them take inline arguments, which may run while
 * a task is in progress, and which are listed in a release build.
 */
module SlashCommandTui {
  import opened Casing
  import opened CommandList

  /** In presentation order: the popup lists them as declared. */
  datatype SlashCommand =
    | Model | Lang | Spec | Approvals | Permissions | ElevateSandbox | Experimental | Skills
    | Review | Rename | New | Resume | Fork | Init | Checkpoint | Compact | Plan | Collab | Agent
    | Diff | Mention | Status | SddDevelop | DebugConfig | SddDevelopParallels | Statusline | Ps
    | Clean | Mcp | Apps | Logout | Quit | Exit | Feedback | Rollout | Personality | TestApproval

  /** What iterating the enum yields. */
  const AllCommands: seq<SlashCommand> := [
    Model, Lang, Spec, Approvals, Permissions, ElevateSandbox, Experimental, Skills,
    Review, Rename, New, Resume, Fork, Init, Checkpoint, Compact, Plan, Collab, Agent,
    Diff, Mention, Status, SddDevelop, DebugConfig, SddDevelopParallels, Statusline, Ps,
    Clean, Mcp, Apps, Logout, Quit, Exit, Feedback, Rollout, Personality, TestApproval]

  function VariantName(c: SlashCommand): string {
    match c
    case Model => "Model"
    case Lang => "Lang"
    case Spec => "Spec"
    case Approvals => "Approvals"
    case Permissions => "Permissions"
    case ElevateSandbox => "ElevateSandbox"
    case Experimental => "Experimental"
    case Skills => "Skills"
    case Review => "Review"
    case Rename => "Rename"
    case New => "New"
    case Resume => "Resume"
    case Fork => "Fork"
    case Init => "Init"
    case Checkpoint => "Checkpoint"
    case Compact => "Compact"
    case Plan => "Plan"
    case Collab => "Collab"
    case Agent => "Agent"
    case Diff => "Diff"
    case Mention => "Mention"
    case Status => "Status"
    case SddDevelop => "SddDevelop"
    case DebugConfig => "DebugConfig"
    case SddDevelopParallels => "SddDevelopParallels"
    case Statusline => "Statusline"
    case Ps => "Ps"
    case Clean => "Clean"
    case Mcp => "Mcp"
    case Apps => "Apps"
    case Logout => "Logout"
    case Quit => "Quit"
    case Exit => "Exit"
    case Feedback => "Feedback"
    case Rollout => "Rollout"
    case Personality => "Personality"
    case TestApproval => "TestApproval"
  }

  lemma WellFormedFirst(c: SlashCommand)
    requires c.Model? || c.Lang? || c.Spec? || c.Approvals? || c.Permissions? || c.ElevateSandbox?
    ensures IsVariantName(VariantName(c))
  {
  }

  lemma WellFormedSecond(c: SlashCommand)
    requires c.Experimental? || c.Skills? || c.Review? || c.Rename? || c.New? || c.Resume?
    ensures IsVariantName(VariantName(c))
  {
  }

  lemma WellFormedThird(c: SlashCommand)
    requires c.Fork? || c.Init? || c.Checkpoint? || c.Compact? || c.Plan? || c.Collab?
    ensures IsVariantName(VariantName(c))
  {
  }

  lemma WellFormedFourth(c: SlashCommand)
    requires c.Agent? || c.Diff? || c.Mention? || c.Status? || c.SddDevelop? || c.DebugConfig?
    ensures IsVariantName(VariantName(c))
  {
  }

  lemma WellFormedFifth(c: SlashCommand)
    requires c.SddDevelopParallels? || c.Statusline? || c.Ps? || c.Clean? || c.Mcp? || c.Apps?
    ensures IsVariantName(VariantName(c))
  {
  }

  lemma WellFormedSixth(c: SlashCommand)
    requires c.Logout? || c.Quit? || c.Exit? || c.Feedback? || c.Rollout? || c.Personality?
    ensures IsVariantName(VariantName(c))
  {
  }

  lemma WellFormedSeventh(c: SlashCommand)
    requires c.TestApproval?
    ensures IsVariantName(VariantName(c))
  {
  }

  /** Every variant is a well-formed name, so strum's kebab spelling applies to it. */
  lemma VariantNamesWellFormed(c: SlashCommand)
    ensures IsVariantName(VariantName(c))
  {
    if c.Model? || c.Lang? || c.Spec? || c.Approvals? || c.Permissions? || c.ElevateSandbox? {
      WellFormedFirst(c);
    } else if c.Experimental? || c.Skills? || c.Review? || c.Rename? || c.New? || c.Resume? {
      WellFormedSecond(c);
    } else if c.Fork? || c.Init? || c.Checkpoint? || c.Compact? || c.Plan? || c.Collab? {
      WellFormedThird(c);
    } else if c.Agent? || c.Diff? || c.Mention? || c.Status? || c.SddDevelop? || c.DebugConfig? {
      WellFormedFourth(c);
    } else if c.SddDevelopParallels? || c.Statusline? || c.Ps? || c.Clean? || c.Mcp? || c.Apps? {
      WellFormedFifth(c);
    } else if c.Logout? || c.Quit? || c.Exit? || c.Feedback? || c.Rollout? || c.Personality? {
      WellFormedSixth(c);
    } else {
      WellFormedSeventh(c);
    }
  }

  /** `command()`: the kebab-case variant name, except for the one spelled by hand. */
  function Command(c: SlashCommand): string {
    if c == ElevateSandbox then "setup-elevated-sandbox" else KebabCase(VariantName(c))
  }

  /** Every command string is lower-case words joined by hyphens. */
  lemma CommandIsKebab(c: SlashCommand)
    ensures IsKebab(Command(c))
  {
    if c == ElevateSandbox {
      assert Command(c) == "setup-elevated-sandbox";
    } else {
      VariantNamesWellFormed(c);
      KebabCaseIsKebab(VariantName(c));
    }
  }

  lemma AllCommandsComplete(c: SlashCommand)
    ensures c in AllCommands
  {
  }

  /** The last part of the description's translation key; `/quit` and `/exit` share one. */
  function DescriptionName(c: SlashCommand): string {
    match c
    case Feedback => "feedback"
    case New => "new"
    case Init => "init"
    case Compact => "compact"
    case Review => "review"
    case Rename => "rename"
    case Resume => "resume"
    case Fork => "fork"
    case Quit | Exit => "exit"
    case Diff => "diff"
    case Mention => "mention"
    case Skills => "skills"
    case Status => "status"
    case Ps => "ps"
    case Clean => "clean"
    case Model => "model"
    case Lang => "lang"
    case Spec => "spec"
    case Approvals => "approvals"
    case Permissions => "permissions"
    case ElevateSandbox => "elevate_sandbox"
    case Experimental => "experimental"
    case Mcp => "mcp"
    case Apps => "apps"
    case Logout => "logout"
    case Rollout => "rollout"
    case TestApproval => "test_approval"
    case Checkpoint => "checkpoint"
    case SddDevelop => "sdd_develop"
    case DebugConfig => "debug_config"
    case SddDevelopParallels => "sdd_develop_parallels"
    case Statusline => "statusline"
    case Personality => "personality"
    case Plan => "plan"
    case Collab => "collab"
    case Agent => "agent"
  }

  /** The translation key of the popup description. */
  function DescriptionKey(c: SlashCommand): string {
    "slash_command.description." + DescriptionName(c)
  }

  /** `description(language)`, with the translation table for the language as a parameter. */
  function Description(c: SlashCommand, translate: string -> string): string {
    translate(DescriptionKey(c))
  }

  /** `/quit` and `/exit` read the same in every language. */
  lemma QuitExitShareDescription(translate: string -> string)
    ensures Description(Quit, translate) == Description(Exit, translate)
  {
  }

  /** `supports_inline_args`: the commands that take text after their name. */
  function SupportsInlineArgs(c: SlashCommand): (r: bool)
    ensures r <==> c in {Review, Rename, Plan, SddDevelop, SddDevelopParallels}
  {
    match c
    case Review | Rename | Plan | SddDevelop | SddDevelopParallels => true
    case _ => false
  }

  /** `available_during_task`: defined for every command. */
  function AvailableDuringTask(c: SlashCommand): bool {
    match c
    case New | Resume | Fork | Init | Checkpoint | Compact | SddDevelop | SddDevelopParallels
      | Model | Lang | Spec | Personality | Approvals | Permissions | ElevateSandbox
      | Experimental | Review | Plan | Logout | Statusline => false
    case Diff | Rename | Mention | Skills | Status | DebugConfig | Ps | Clean | Mcp | Apps
      | Feedback | Quit | Exit => true
    case Rollout => true
    case TestApproval => true
    case Collab => true
    case Agent => true
  }

  /** The commands that would change the session or its settings wait until no turn is running. */
  const BlockedDuringTask: set<SlashCommand> := {
    New, Resume, Fork, Init, Checkpoint, Compact, SddDevelop, SddDevelopParallels,
    Model, Lang, Spec, Personality, Approvals, Permissions, ElevateSandbox,
    Experimental, Review, Plan, Logout, Statusline}

  lemma AvailableDuringTaskSpec(c: SlashCommand)
    ensures !AvailableDuringTask(c) <==> c in BlockedDuringTask
  {
  }

  /** Of the commands that take inline arguments only `/rename` may run during a task. */
  lemma InlineArgsDuringTask(c: SlashCommand)
    ensures SupportsInlineArgs(c) && AvailableDuringTask(c) <==> c == Rename
  {
  }

  /** `is_visible`: the two debugging commands only in a debug build. */
  function IsVisible(c: SlashCommand, debugBuild: bool): (r: bool)
    ensures r <==> debugBuild || (c != Rollout && c != TestApproval)
  {
    match c
    case Rollout | TestApproval => debugBuild
    case _ => true
  }

  /** `built_in_slash_commands`: the visible commands in declaration order, each with its string. */
  function BuiltInSlashCommands(debugBuild: bool): seq<(string, SlashCommand)> {
    Entries(AllCommands, Command, c => IsVisible(c, debugBuild))
  }

  /** A release build lists every command but `/rollout` and `/test-approval`. */
  lemma ReleaseBuiltInsMembers(c: SlashCommand)
    ensures (Command(c), c) in BuiltInSlashCommands(false) <==> c != Rollout && c != TestApproval
  {
    AllCommandsComplete(c);
    EntriesMembers(AllCommands, Command, c => IsVisible(c, false), c);
  }

  /** Every build lists its commands in declaration order, each with its own string. */
  lemma BuiltInsInOrder(debugBuild: bool)
    ensures IsSubsequence(Listed(BuiltInSlashCommands(debugBuild)), AllCommands)
    ensures forall e :: e in BuiltInSlashCommands(debugBuild) ==> e.0 == Command(e.1) && IsVisible(e.1, debugBuild)
  {
    EntriesInOrder(AllCommands, Command, c => IsVisible(c, debugBuild));
    EntriesNamed(AllCommands, Command, c => IsVisible(c, debugBuild));
  }

  /** A debug build lists every command in declaration order. */
  lemma DebugBuiltIns()
    ensures Listed(BuiltInSlashCommands(true)) == AllCommands
  {
    EntriesAllVisible(AllCommands, Command, c => IsVisible(c, true));
  }

  /** `/spec` is offered in every build. */
  lemma SpecIsBuiltIn(debugBuild: bool)
    ensures ("spec", Spec) in BuiltInSlashCommands(debugBuild)
  {
    AllCommandsComplete(Spec);
    EntriesMembers(AllCommands, Command, c => IsVisible(c, debugBuild), Spec);
    SpecSpelling();
  }

  lemma SpecSpelling()
    ensures Command(Spec) == "spec"
  {
    KebabWord('S', "pec");
    assert ['S'] + "pec" == "Spec";
  }
}
