/**
 * The slash commands of the second terminal interface: a shorter list than
 * the first one's, with the same spelling rules, the same debug-only
 * commands and its own rule for what may run while a task is in progress.
 */
module SlashCommandTui2 {
  import opened Casing
  import opened CommandList

  /** In presentation order: the popup lists them as declared. */
  datatype SlashCommand =
    | Model | Lang | Agent | Approvals | ElevateSandbox | Skills | Review | New
    | Resume | Fork | Init | Compact | Diff | Clean | Mention | Status
    | Mcp | Logout | Quit | Exit | Feedback | Rollout | TestApproval

  /** What iterating the enum yields. */
  const AllCommands: seq<SlashCommand> := [
    Model, Lang, Agent, Approvals, ElevateSandbox, Skills, Review, New,
    Resume, Fork, Init, Compact, Diff, Clean, Mention, Status,
    Mcp, Logout, Quit, Exit, Feedback, Rollout, TestApproval]

  function VariantName(c: SlashCommand): string {
    match c
    case Model => "Model"
    case Lang => "Lang"
    case Agent => "Agent"
    case Approvals => "Approvals"
    case ElevateSandbox => "ElevateSandbox"
    case Skills => "Skills"
    case Review => "Review"
    case New => "New"
    case Resume => "Resume"
    case Fork => "Fork"
    case Init => "Init"
    case Compact => "Compact"
    case Diff => "Diff"
    case Clean => "Clean"
    case Mention => "Mention"
    case Status => "Status"
    case Mcp => "Mcp"
    case Logout => "Logout"
    case Quit => "Quit"
    case Exit => "Exit"
    case Feedback => "Feedback"
    case Rollout => "Rollout"
    case TestApproval => "TestApproval"
  }

  lemma WellFormedFirst(c: SlashCommand)
    requires c.Model? || c.Lang? || c.Agent? || c.Approvals? || c.ElevateSandbox? || c.Skills?
    ensures IsVariantName(VariantName(c))
  {
  }

  lemma WellFormedSecond(c: SlashCommand)
    requires c.Review? || c.New? || c.Resume? || c.Fork? || c.Init? || c.Compact?
    ensures IsVariantName(VariantName(c))
  {
  }

  lemma WellFormedThird(c: SlashCommand)
    requires c.Diff? || c.Clean? || c.Mention? || c.Status? || c.Mcp? || c.Logout?
    ensures IsVariantName(VariantName(c))
  {
  }

  lemma WellFormedFourth(c: SlashCommand)
    requires c.Quit? || c.Exit? || c.Feedback? || c.Rollout? || c.TestApproval?
    ensures IsVariantName(VariantName(c))
  {
  }

  /** Every variant is a well-formed name, so strum's kebab spelling applies to it. */
  lemma VariantNamesWellFormed(c: SlashCommand)
    ensures IsVariantName(VariantName(c))
  {
    if c.Model? || c.Lang? || c.Agent? || c.Approvals? || c.ElevateSandbox? || c.Skills? {
      WellFormedFirst(c);
    } else if c.Review? || c.New? || c.Resume? || c.Fork? || c.Init? || c.Compact? {
      WellFormedSecond(c);
    } else if c.Diff? || c.Clean? || c.Mention? || c.Status? || c.Mcp? || c.Logout? {
      WellFormedThird(c);
    } else {
      WellFormedFourth(c);
    }
  }

  /** `command()`: the kebab-case variant name, except for the one spelled by hand. */
  function Command(c: SlashCommand): string {
    if c == ElevateSandbox then "setup-elevated-sandbox" else KebabCase(VariantName(c))
  }

  /** Every command string is lower-case words joined by hyphens. */
  lemma CommandIsKebab(c: SlashCommand)
    ensures IsKebab(Command(c))
  {
    if c == ElevateSandbox {
      assert Command(c) == "setup-elevated-sandbox";
    } else {
      VariantNamesWellFormed(c);
      KebabCaseIsKebab(VariantName(c));
    }
  }

  lemma AllCommandsComplete(c: SlashCommand)
    ensures c in AllCommands
  {
  }

  /** The last part of the description's translation key; `/quit` and `/exit` share one. */
  function DescriptionName(c: SlashCommand): string {
    match c
    case Feedback => "feedback"
    case New => "new"
    case Init => "init"
    case Compact => "compact"
    case Review => "review"
    case Resume => "resume"
    case Fork => "fork"
    case Quit | Exit => "exit"
    case Diff => "diff"
    case Clean => "clean"
    case Mention => "mention"
    case Skills => "skills"
    case Status => "status"
    case Model => "model"
    case Lang => "lang"
    case Agent => "agent"
    case Approvals => "approvals"
    case ElevateSandbox => "elevate_sandbox"
    case Mcp => "mcp"
    case Logout => "logout"
    case Rollout => "rollout"
    case TestApproval => "test_approval"
  }

  /** The translation key of the popup description. */
  function DescriptionKey(c: SlashCommand): string {
    "slash_command.description." + DescriptionName(c)
  }

  /** `description(language)`, with the translation table for the language as a parameter. */
  function Description(c: SlashCommand, translate: string -> string): string {
    translate(DescriptionKey(c))
  }

  /** `/quit` and `/exit` read the same in every language. */
  lemma QuitExitShareDescription(translate: string -> string)
    ensures Description(Quit, translate) == Description(Exit, translate)
  {
  }

  /** `available_during_task`: defined for every command. */
  function AvailableDuringTask(c: SlashCommand): bool {
    match c
    case New | Resume | Fork | Init | Compact | Model | Lang | Agent | Approvals
      | ElevateSandbox | Review | Logout => false
    case Diff | Clean | Mention | Skills | Status | Mcp | Feedback | Quit | Exit => true
    case Rollout => true
    case TestApproval => true
  }

  /** The commands that would change the session or its settings wait until no turn is running. */
  const BlockedDuringTask: set<SlashCommand> := {
    New, Resume, Fork, Init, Compact, Model, Lang, Agent, Approvals, ElevateSandbox, Review, Logout}

  lemma AvailableDuringTaskSpec(c: SlashCommand)
    ensures !AvailableDuringTask(c) <==> c in BlockedDuringTask
  {
  }

  /** `is_visible`: the two debugging commands only in a debug build. */
  function IsVisible(c: SlashCommand, debugBuild: bool): (r: bool)
    ensures r <==> debugBuild || (c != Rollout && c != TestApproval)
  {
    match c
    case Rollout | TestApproval => debugBuild
    case _ => true
  }

  /** `built_in_slash_commands`: the visible commands in declaration order, each with its string. */
  function BuiltInSlashCommands(debugBuild: bool): seq<(string, SlashCommand)> {
    Entries(AllCommands, Command, c => IsVisible(c, debugBuild))
  }

  /** A release build lists every command but `/rollout` and `/test-approval`. */
  lemma ReleaseBuiltInsMembers(c: SlashCommand)
    ensures (Command(c), c) in BuiltInSlashCommands(false) <==> c != Rollout && c != TestApproval
  {
    AllCommandsComplete(c);
    EntriesMembers(AllCommands, Command, c => IsVisible(c, false), c);
  }

  /** Every build lists its commands in declaration order, each with its own string. */
  lemma BuiltInsInOrder(debugBuild: bool)
    ensures IsSubsequence(Listed(BuiltInSlashCommands(debugBuild)), AllCommands)
    ensures forall e :: e in BuiltInSlashCommands(debugBuild) ==> e.0 == Command(e.1) && IsVisible(e.1, debugBuild)
  {
    EntriesInOrder(AllCommands, Command, c => IsVisible(c, debugBuild));
    EntriesNamed(AllCommands, Command, c => IsVisible(c, debugBuild));
  }

  /** A debug build lists every command in declaration order. */
  lemma DebugBuiltIns()
    ensures Listed(BuiltInSlashCommands(true)) == AllCommands
  {
    EntriesAllVisible(AllCommands, Command, c => IsVisible(c, true));
  }

  // ---------------------------------------------------------------------------
  // `/agent` is offered, and the commands this interface dropped are not

  lemma AgentSpelling()
    ensures Command(Agent) == "agent"
  {
    KebabWord('A', "gent");
    assert ['A'] + "gent" == "Agent";
  }

  /** `/agent` is offered in every build. */
  lemma AgentIsBuiltIn(debugBuild: bool)
    ensures ("agent", Agent) in BuiltInSlashCommands(debugBuild)
  {
    AllCommandsComplete(Agent);
    EntriesMembers(AllCommands, Command, c => IsVisible(c, debugBuild), Agent);
    AgentSpelling();
  }

  /** A kebab spelling of a name no variant has is no command's string. */
  lemma NotASpelling(name: string, spelling: string)
    requires IsVariantName(name) && KebabCase(name) == spelling
    requires forall c :: VariantName(c) != name
    requires spelling != "setup-elevated-sandbox"
    ensures forall c :: Command(c) != spelling
  {
    forall c | c != ElevateSandbox
      ensures Command(c) != spelling
    {
      VariantNamesWellFormed(c);
      if KebabCase(VariantName(c)) == spelling {
        KebabInjective(VariantName(c), name);
      }
    }
  }

  lemma SpecAbsent()
    ensures forall c :: Command(c) != "spec"
  {
    KebabWord('S', "pec");
    assert ['S'] + "pec" == "Spec";
    NotASpelling("Spec", "spec");
  }

  lemma PresetAbsent()
    ensures forall c :: Command(c) != "preset"
  {
    KebabWord('P', "reset");
    assert ['P'] + "reset" == "Preset";
    NotASpelling("Preset", "preset");
  }

  lemma CollabAbsent()
    ensures forall c :: Command(c) != "collab"
  {
    KebabWord('C', "ollab");
    assert ['C'] + "ollab" == "Collab";
    NotASpelling("Collab", "collab");
  }

  lemma SddSpelling()
    ensures KebabCase(['S'] + "dd") == ['s'] + "dd"
  {
    KebabWord('S', "dd");
  }

  lemma DevelopSpelling()
    ensures KebabTail(['D'] + "evelop") == ['-', 'd'] + "evelop"
  {
    KebabTailWord('D', "evelop");
  }

  lemma ParallelsSpelling()
    ensures KebabTail(['P'] + "arallels") == ['-', 'p'] + "arallels"
  {
    KebabTailWord('P', "arallels");
  }

  lemma SddDevelopSpelling(sdd: string, develop: string)
    requires sdd == ['S'] + "dd" && develop == ['D'] + "evelop"
    ensures KebabCase(sdd + develop) == "sdd-develop"
  {
    KebabCaseAppend(sdd, develop);
    SddSpelling();
    DevelopSpelling();
    SddDevelopJoined();
  }

  lemma SddDevelopJoined()
    ensures ['s'] + "dd" + (['-', 'd'] + "evelop") == "sdd-develop"
  {
  }

  lemma SddDevelopParallelsSpelling(sdd: string, develop: string, parallels: string)
    requires sdd == ['S'] + "dd" && develop == ['D'] + "evelop" && parallels == ['P'] + "arallels"
    ensures KebabCase(sdd + (develop + parallels)) == "sdd-develop-parallels"
  {
    KebabCaseAppend(sdd, develop + parallels);
    KebabTailAppend(develop, parallels);
    SddSpelling();
    DevelopSpelling();
    ParallelsSpelling();
    SddDevelopParallelsJoined();
  }

  lemma SddDevelopParallelsJoined()
    ensures ['s'] + "dd" + ((['-', 'd'] + "evelop") + (['-', 'p'] + "arallels")) == "sdd-develop-parallels"
  {
  }

  lemma SddDevelopAbsent()
    ensures forall c :: Command(c) != "sdd-develop"
  {
    var name := ['S'] + "dd" + (['D'] + "evelop");
    SddDevelopSpelling(['S'] + "dd", ['D'] + "evelop");
    assert |name| == 10;
    NotASpelling(name, "sdd-develop");
  }

  lemma SddDevelopParallelsAbsent()
    ensures forall c :: Command(c) != "sdd-develop-parallels"
  {
    var name := ['S'] + "dd" + ((['D'] + "evelop") + (['P'] + "arallels"));
    SddDevelopParallelsSpelling(['S'] + "dd", ['D'] + "evelop", ['P'] + "arallels");
    assert |name| == 19;
    NotASpelling(name, "sdd-develop-parallels");
  }

  /** The commands only the first interface has are not offered here, in any build. */
  lemma LegacyCommandsAbsent(debugBuild: bool)
    ensures forall e :: e in BuiltInSlashCommands(debugBuild) ==>
      e.0 != "spec" && e.0 != "preset" && e.0 != "collab" && e.0 != "sdd-develop" && e.0 != "sdd-develop-parallels"
  {
    BuiltInsInOrder(debugBuild);
    SpecAbsent();
    PresetAbsent();
    CollabAbsent();
    SddDevelopAbsent();
    SddDevelopParallelsAbsent();
  }
}
