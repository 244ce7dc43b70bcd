/**
 * The SDD (spec-driven development) git task: validate an `sdd/` branch
 * name, then run the git commands of one branch action, stopping at the
 * first failure. Git itself is abstract: read-only queries (`run_git_silent`)
 * and logged commands (`run_git_logged`) are answered by functions of the
 * logged commands already issued, which is all that can change the
 * repository here. Localised messages are represented by their keys.
 */
module SddGit {
  import opened Wrappers
  import opened Text

  const BranchPrefix: string := "sdd/"

  /** The errors, by message key; those that carry text carry what the message interpolates. */
  datatype SddError =
    | InvalidPrefix(name: string)
    | BranchNameInvalid(name: string)
    | BranchNameWhitespace(name: string)
    | BranchNameInvalidSegment(name: string)
    | NotGitRepo
    | UnknownBranch
    | DirtyWorkspace
    | DirtyNotOnBranch
    | GitExecFailed(detail: string)
    | GitCommandFailed
    | GitStderr(stderr: string)
    | CommandCancelled
    | CommandFailed
    | CommandOutput(output: string)
    | CommandFailedDetail(detail: string)

  // ---------------------------------------------------------------------------
  // Branch names

  predicate HasWhitespace(s: string) {
    exists i :: 0 <= i < |s| && IsWhitespace(s[i])
  }

  /**
   * A usable SDD branch: `sdd/` and at least one more character, no
   * whitespace and no `..` (two of git's ref-name rules). The source
   * compares byte lengths; past a 4-byte ASCII prefix that is the same as
   * having one more character.
   */
  predicate ValidSddBranch(name: string) {
    && StartsWith(name, BranchPrefix)
    && |name| > |BranchPrefix|
    && !HasWhitespace(name)
    && !Contains(name, "..")
  }

  /** `ensure_sdd_branch`: the checks in order, each with its own error. */
  function EnsureSddBranch(name: string): (r: Result<(), SddError>)
    ensures r.Ok? <==> ValidSddBranch(name)
    ensures !StartsWith(name, BranchPrefix) ==> r == Err(InvalidPrefix(name))
    ensures StartsWith(name, BranchPrefix) && |name| <= |BranchPrefix| ==> r == Err(BranchNameInvalid(name))
    ensures StartsWith(name, BranchPrefix) && |name| > |BranchPrefix| && HasWhitespace(name) ==>
      r == Err(BranchNameWhitespace(name))
    ensures (&& StartsWith(name, BranchPrefix) && |name| > |BranchPrefix| && !HasWhitespace(name)
             && Contains(name, "..")) ==> r == Err(BranchNameInvalidSegment(name))
  {
    if !StartsWith(name, BranchPrefix) then Err(InvalidPrefix(name))
    else if |name| <= |BranchPrefix| then Err(BranchNameInvalid(name))
    else if HasWhitespace(name) then Err(BranchNameWhitespace(name))
    else if Contains(name, "..") then Err(BranchNameInvalidSegment(name))
    else Ok(())
  }

  /** Every name the check accepts has a non-empty part after `sdd/`, free of whitespace and `..`. */
  lemma AcceptedBranchSuffix(name: string)
    requires EnsureSddBranch(name).Ok?
    ensures name == BranchPrefix + name[|BranchPrefix|..] && name[|BranchPrefix|..] != []
    ensures forall i :: |BranchPrefix| <= i < |name| ==> !IsWhitespace(name[i])
  {
    assert name[..|BranchPrefix|] == BranchPrefix;
  }

  // ---------------------------------------------------------------------------
  // Running git

  /** Git's arguments after `git`, and the logged commands issued so far. */
  type Command = seq<string>
  type History = seq<Command>

  /** What a silent git run gave: it could not start, or it finished with its status and output. */
  datatype SilentOutput = SpawnFailed(error: string) | Finished(success: bool, stdout: string, stderr: string)

  /** What a logged git run gave: cancelled, exited with a code and output, or failed to execute. */
  datatype ExecOutcome = Cancelled | Exited(exitCode: int, aggregatedOutput: string) | ExecError(detail: string)

  /** The answers of git to silent queries and logged commands, given the logged commands run before. */
  type SilentGit = (History, Command) -> SilentOutput
  type LoggedGit = (History, Command) -> ExecOutcome

  /** `run_git_silent`: trimmed stdout on success, else the trimmed stderr or a default error. */
  function RunGitSilent(out: SilentOutput): (r: Result<string, SddError>)
    ensures r.Ok? <==> out.Finished? && out.success
    ensures r.Ok? ==> r.value == Trim(out.stdout)
    ensures out.Finished? && !out.success ==>
      r == Err(if IsBlank(out.stderr) then GitCommandFailed else GitStderr(Trim(out.stderr)))
    ensures out.SpawnFailed? ==> r == Err(GitExecFailed(out.error))
  {
    match out
    case SpawnFailed(e) => Err(GitExecFailed(e))
    case Finished(success, stdout, stderr) =>
      if !success then
        var trimmed := Trim(stderr);
        if trimmed == [] then Err(GitCommandFailed) else Err(GitStderr(trimmed))
      else Ok(Trim(stdout))
  }

  /**
   * The outcome of `run_git_logged`: exit code 0 succeeds; another code is
   * an error carrying the aggregated output, or the default message when
   * that is blank; cancellation and execution failures are errors too.
   */
  function CommandOutcome(o: ExecOutcome): (r: Result<(), SddError>)
    ensures r.Ok? <==> o.Exited? && o.exitCode == 0
    ensures o.Cancelled? ==> r == Err(CommandCancelled)
    ensures o.ExecError? ==> r == Err(CommandFailedDetail(o.detail))
    ensures o.Exited? && o.exitCode != 0 ==>
      r == Err(if IsBlank(o.aggregatedOutput) then CommandFailed else CommandOutput(o.aggregatedOutput))
  {
    match o
    case Cancelled => Err(CommandCancelled)
    case ExecError(detail) => Err(CommandFailedDetail(detail))
    case Exited(code, output) =>
      if code == 0 then Ok(())
      else if Trim(output) == [] then Err(CommandFailed)
      else Err(CommandOutput(output))
  }

  /** A failed command's error never hides its output: the text it carries is not blank. */
  lemma CommandOutputNotBlank(o: ExecOutcome)
    requires CommandOutcome(o).Err? && CommandOutcome(o).error.CommandOutput?
    ensures !IsBlank(CommandOutcome(o).error.output)
  {
  }

  const InsideWorkTree: Command := ["rev-parse", "--is-inside-work-tree"]
  const AbbrevRefHead: Command := ["rev-parse", "--abbrev-ref", "HEAD"]
  const StatusPorcelain: Command := ["status", "--porcelain"]

  /** `ensure_git_repository`: git must answer "true". */
  function EnsureGitRepository(git: SilentGit, h: History): Result<(), SddError> {
    var out := RunGitSilent(git(h, InsideWorkTree));
    if out.Err? then Err(out.error)
    else if Trim(out.value) != "true" then Err(NotGitRepo)
    else Ok(())
  }

  /** `current_branch`: the abbreviated HEAD, which must not be empty. */
  function CurrentBranch(git: SilentGit, h: History): (r: Result<string, SddError>)
    ensures r.Ok? ==> r.value != []
  {
    var out := RunGitSilent(git(h, AbbrevRefHead));
    if out.Err? then out
    else if out.value == [] then Err(UnknownBranch)
    else out
  }

  /** `is_repo_dirty`: the porcelain status is not blank. */
  function IsRepoDirty(git: SilentGit, h: History): Result<bool, SddError> {
    var out := RunGitSilent(git(h, StatusPorcelain));
    if out.Err? then Err(out.error) else Ok(!IsBlank(out.value))
  }

  /** `ensure_clean_repo`. */
  function EnsureCleanRepo(git: SilentGit, h: History): Result<(), SddError> {
    var dirty := IsRepoDirty(git, h);
    if dirty.Err? then Err(dirty.error)
    else if dirty.value then Err(DirtyWorkspace)
    else Ok(())
  }

  // ---------------------------------------------------------------------------
  // The actions

  datatype SddGitAction =
    | CreateBranch(name: string, base: string)
    | SwitchBranch(name: string)
    | FinalizeMerge(name: string, base: string, commitMessage: string)
    | AbandonBranch(name: string, base: string)

  function CheckoutCmd(branch: string): Command { ["checkout", branch] }

  /** A checkout of `target` unless `current` is already it. */
  function CheckoutIfNeeded(current: string, target: string): seq<Command> {
    if current != target then [CheckoutCmd(target)] else []
  }

  /**
   * The script of an action: the logged commands it issues when each of
   * them succeeds, and how it ends (a failed check or query, or success).
   */
  datatype Script = Script(commands: seq<Command>, outcome: Result<(), SddError>)

  function Plan(action: SddGitAction, git: SilentGit): Script {
    var repo := EnsureGitRepository(git, []);
    var valid := EnsureSddBranch(action.name);
    if repo.Err? then Script([], repo)
    else if valid.Err? then Script([], valid)
    else match action
      case CreateBranch(name, base) => FromBasePlan(base, ["checkout", "-b", name], git)
      case SwitchBranch(name) => SwitchPlan(name, git)
      case FinalizeMerge(name, base, message) => FinalizePlan(name, base, message, git)
      case AbandonBranch(name, base) => FromBasePlan(base, ["branch", "-D", name], git)
  }

  /** Creating or abandoning a branch: a clean tree, `base` checked out if needed, then `last`. */
  function FromBasePlan(base: string, last: Command, git: SilentGit): Script {
    var clean := EnsureCleanRepo(git, []);
    var current := CurrentBranch(git, []);
    if clean.Err? then Script([], clean)
    else if current.Err? then Script([], Err(current.error))
    else Script(CheckoutIfNeeded(current.value, base) + [last], Ok(()))
  }

  /** Switching: a checkout unless already on the branch. */
  function SwitchPlan(name: string, git: SilentGit): Script {
    var current := CurrentBranch(git, []);
    if current.Err? then Script([], Err(current.error))
    else Script(CheckoutIfNeeded(current.value, name), Ok(()))
  }

  /**
   * Finalising: refuse a dirty tree off the branch; on the branch, commit
   * what is dirty; then on `base`, merge the branch without fast-forward.
   */
  function FinalizePlan(name: string, base: string, message: string, git: SilentGit): Script {
    var current := CurrentBranch(git, []);
    var dirty := IsRepoDirty(git, []);
    if current.Err? then Script([], Err(current.error))
    else if dirty.Err? then Script([], Err(dirty.error))
    else if dirty.value && current.value != name then Script([], Err(DirtyNotOnBranch))
    else MergePlan(CheckoutIfNeeded(current.value, name), name, base, message, git)
  }

  /** Finalising once `h1` has put the branch in place: commit if dirty, check out `base`, merge. */
  function MergePlan(h1: seq<Command>, name: string, base: string, message: string, git: SilentGit): Script {
    var dirtyAfter := IsRepoDirty(git, h1);
    if dirtyAfter.Err? then Script(h1, Err(dirtyAfter.error))
    else
      var h2 := h1 + (if dirtyAfter.value then [["add", "-A"], ["commit", "-m", message]] else []);
      var currentAfter := CurrentBranch(git, h2);
      if currentAfter.Err? then Script(h2, Err(currentAfter.error))
      else Script(h2 + CheckoutIfNeeded(currentAfter.value, base) + [["merge", "--no-ff", name]], Ok(()))
  }

  /** The finalising tail starts with the commands that put the branch in place. */
  lemma MergePlanExtends(h1: seq<Command>, name: string, base: string, message: string, git: SilentGit)
    ensures h1 <= MergePlan(h1, name, base, message, git).commands
  {
    var cmds := MergePlan(h1, name, base, message, git).commands;
    assert cmds[..|h1|] == h1;
  }

  /** Every action checks the repository and the branch name before it issues any command. */
  lemma PlanValidatesFirst(action: SddGitAction, git: SilentGit)
    requires !ValidSddBranch(action.name)
    ensures Plan(action, git).commands == [] && Plan(action, git).outcome.Err?
  {
  }

  /** A successful script always ends with the action's own command on the branch. */
  lemma PlanEndsWithAction(action: SddGitAction, git: SilentGit)
    requires Plan(action, git).outcome.Ok? && !action.SwitchBranch?
    ensures var cmds := Plan(action, git).commands;
      cmds != [] && cmds[|cmds| - 1] == match action
        case CreateBranch(name, _) => ["checkout", "-b", name]
        case FinalizeMerge(name, _, _) => ["merge", "--no-ff", name]
        case AbandonBranch(name, _) => ["branch", "-D", name]
  {
    match action
    case CreateBranch(name, base) => FromBasePlanEnds(base, ["checkout", "-b", name], git);
    case FinalizeMerge(name, base, message) =>
      MergePlanEnds(CheckoutIfNeeded(CurrentBranch(git, []).value, name), name, base, message, git);
    case AbandonBranch(name, base) => FromBasePlanEnds(base, ["branch", "-D", name], git);
  }

  lemma FromBasePlanEnds(base: string, last: Command, git: SilentGit)
    requires FromBasePlan(base, last, git).outcome.Ok?
    ensures var cmds := FromBasePlan(base, last, git).commands; cmds != [] && cmds[|cmds| - 1] == last
  {
  }

  lemma MergePlanEnds(h1: seq<Command>, name: string, base: string, message: string, git: SilentGit)
    requires MergePlan(h1, name, base, message, git).outcome.Ok?
    ensures var cmds := MergePlan(h1, name, base, message, git).commands;
      cmds != [] && cmds[|cmds| - 1] == ["merge", "--no-ff", name]
  {
  }

  /** Creating and abandoning need a clean tree: a dirty one issues nothing. */
  lemma PlanNeedsCleanTree(action: SddGitAction, git: SilentGit)
    requires action.CreateBranch? || action.AbandonBranch?
    requires EnsureGitRepository(git, []).Ok? && ValidSddBranch(action.name)
    requires IsRepoDirty(git, []) == Ok(true)
    ensures Plan(action, git) == Script([], Err(DirtyWorkspace))
  {
  }

  /** Finalising commits exactly when the tree is dirty once on the branch. */
  lemma FinalizeCommitsOnlyWhenDirty(name: string, base: string, message: string, git: SilentGit)
    requires Plan(FinalizeMerge(name, base, message), git).outcome.Ok?
    ensures var cmds := Plan(FinalizeMerge(name, base, message), git).commands;
      var h1 := CheckoutIfNeeded(CurrentBranch(git, []).value, name);
      && IsRepoDirty(git, h1).Ok?
      && (["commit", "-m", message] in cmds <==> IsRepoDirty(git, h1).value)
  {
    var cmds := Plan(FinalizeMerge(name, base, message), git).commands;
    var h1 := CheckoutIfNeeded(CurrentBranch(git, []).value, name);
    var commit: Command := ["commit", "-m", message];
    assert commit != CheckoutCmd(name) && commit != CheckoutCmd(base) && commit != ["merge", "--no-ff", name];
    assert commit != ["add", "-A"];
    if !IsRepoDirty(git, h1).value {
      assert commit !in h1;
    }
  }

  // ---------------------------------------------------------------------------
  // Running a script

  /**
   * Issuing `cmds` after `h`, one at a time, stopping at the first that
   * fails: that failure (or success) and the commands issued by then.
   */
  function RunAll(h: History, cmds: seq<Command>, logged: LoggedGit): (Result<(), SddError>, History)
    decreases |cmds|
  {
    if cmds == [] then (Ok(()), h)
    else
      var r := CommandOutcome(logged(h, cmds[0]));
      if r.Err? then (r, h + [cmds[0]]) else RunAll(h + [cmds[0]], cmds[1..], logged)
  }

  /** What running a script gives: the first failing command's error, else the script's own ending. */
  function RunScript(plan: Script, logged: LoggedGit): (Result<(), SddError>, History) {
    var run := RunAll([], plan.commands, logged);
    if run.0.Err? then run else (plan.outcome, run.1)
  }

  /**
   * Fail-fast: the commands issued are a prefix of the script after `h`;
   * every one but a failing last succeeded; success means all were issued.
   */
  lemma {:induction false} RunAllFailFast(h: History, cmds: seq<Command>, logged: LoggedGit)
    ensures var (r, history) := RunAll(h, cmds, logged);
      && |h| <= |history| <= |h| + |cmds|
      && history == h + cmds[..|history| - |h|]
      && (r.Ok? ==> history == h + cmds)
      && (r.Err? ==> |history| > |h| && r == CommandOutcome(logged(history[..|history| - 1], history[|history| - 1])))
      && (forall k :: |h| <= k < |history| && (r.Ok? || k < |history| - 1) ==>
            CommandOutcome(logged(history[..k], history[k])).Ok?)
    decreases |cmds|
  {
    if cmds != [] {
      var c := cmds[0];
      if CommandOutcome(logged(h, c)).Err? {
        assert (h + [c])[..|h|] == h;
      } else {
        RunAllFailFast(h + [c], cmds[1..], logged);
        var (r, history) := RunAll(h, cmds, logged);
        assert history == h + cmds[..|history| - |h|] by {
          assert cmds[..|history| - |h|] == [c] + cmds[1..][..|history| - |h| - 1];
        }
        forall k | |h| <= k < |history| && (r.Ok? || k < |history| - 1)
          ensures CommandOutcome(logged(history[..k], history[k])).Ok?
        {
          if k == |h| {
            assert history[..k] == h && history[k] == c;
          }
        }
      }
    }
  }

  /** Issuing `a` then `b` is issuing `a + b`, where `b` is reached only if all of `a` succeeded. */
  lemma {:induction false} RunAllAppend(h: History, a: seq<Command>, b: seq<Command>, logged: LoggedGit)
    ensures RunAll(h, a + b, logged)
      == (var (r, h1) := RunAll(h, a, logged); if r.Err? then (r, h1) else RunAll(h1, b, logged))
    decreases |a|
  {
    if a != [] {
      assert (a + b)[0] == a[0] && (a + b)[1..] == a[1..] + b;
      RunAllAppend(h + [a[0]], a[1..], b, logged);
    } else {
      assert a + b == b;
    }
  }

  /** One more command after a successful run. */
  lemma RunAllSnoc(done: seq<Command>, cmd: Command, logged: LoggedGit)
    requires RunAll([], done, logged).0.Ok?
    ensures var h := RunAll([], done, logged).1;
      RunAll([], done + [cmd], logged) == (CommandOutcome(logged(h, cmd)), h + [cmd])
  {
    RunAllAppend([], done, [cmd], logged);
  }

  /** Once a prefix of a script has failed, the rest of it is never issued. */
  lemma RunScriptStops(plan: Script, done: seq<Command>, logged: LoggedGit)
    requires done <= plan.commands && RunAll([], done, logged).0.Err?
    ensures RunScript(plan, logged) == RunAll([], done, logged)
  {
    RunAllAppend([], done, plan.commands[|done|..], logged);
    assert done + plan.commands[|done|..] == plan.commands;
  }

  /**
   * `run_sdd_git_action`: the action's script run against git, issuing each
   * logged command in turn and stopping at the first that fails.
   */
  method RunSddGitAction(action: SddGitAction, git: SilentGit, logged: LoggedGit)
    returns (r: Result<(), SddError>, history: History)
    ensures (r, history) == RunScript(Plan(action, git), logged)
  {
    var repo := EnsureGitRepository(git, []);
    if repo.Err? {
      return repo, [];
    }
    var valid := EnsureSddBranch(action.name);
    if valid.Err? {
      return valid, [];
    }
    match action {
      case CreateBranch(name, base) =>
        r, history := RunFromBase(base, ["checkout", "-b", name], git, logged);
      case SwitchBranch(name) =>
        r, history := RunSwitch(name, git, logged);
      case FinalizeMerge(name, base, message) =>
        r, history := RunFinalize(name, base, message, git, logged);
      case AbandonBranch(name, base) =>
        r, history := RunFromBase(base, ["branch", "-D", name], git, logged);
    }
  }

    method RunFromBase(base: string, last: Command, git: SilentGit, logged: LoggedGit)
    returns (r: Result<(), SddError>, history: History)
    ensures (r, history) == RunScript(FromBasePlan(base, last, git), logged)
  {
    var clean := EnsureCleanRepo(git, []);
    if clean.Err? {
      return clean, [];
    }
    var current := CurrentBranch(git, []);
    if current.Err? {
      return Err(current.error), [];
    }
    ghost var done: seq<Command> := [];
    r, history := Ok(()), [];
    if current.value != base {
      RunAllSnoc(done, CheckoutCmd(base), logged);
      r, history := RunLogged(history, CheckoutCmd(base), logged);
      done := done + [CheckoutCmd(base)];
      if r.Err? {
        return;
      }
    }
    RunAllSnoc(done, last, logged);
    r, history := RunLogged(history, last, logged);
    done := done + [last];
    assert done == FromBasePlan(base, last, git).commands;
  }

  method RunSwitch(name: string, git: SilentGit, logged: LoggedGit)
    returns (r: Result<(), SddError>, history: History)
    ensures (r, history) == RunScript(SwitchPlan(name, git), logged)
  {
    var current := CurrentBranch(git, []);
    if current.Err? {
      return Err(current.error), [];
    }
    r, history := Ok(()), [];
    if current.value != name {
      RunAllSnoc([], CheckoutCmd(name), logged);
      r, history := RunLogged(history, CheckoutCmd(name), logged);
    }
    assert history == SwitchPlan(name, git).commands;
  }

  method RunFinalize(name: string, base: string, message: string, git: SilentGit, logged: LoggedGit)
    returns (r: Result<(), SddError>, history: History)
    ensures (r, history) == RunScript(FinalizePlan(name, base, message, git), logged)
  {
    var current := CurrentBranch(git, []);
    if current.Err? {
      return Err(current.error), [];
    }
    var dirty := IsRepoDirty(git, []);
    if dirty.Err? {
      return Err(dirty.error), [];
    }
    if dirty.value && current.value != name {
      return Err(DirtyNotOnBranch), [];
    }
    ghost var plan := MergePlan(CheckoutIfNeeded(current.value, name), name, base, message, git);
    history := [];
    if current.value != name {
      RunAllSnoc([], CheckoutCmd(name), logged);
      r, history := RunLogged(history, CheckoutCmd(name), logged);
      if r.Err? {
        MergePlanExtends(history, name, base, message, git);
        RunScriptStops(plan, history, logged);
        return;
      }
    }
    assert history == CheckoutIfNeeded(current.value, name);
    r, history := RunMerge(history, name, base, message, git, logged);
  }

  method RunMerge(h1: History, name: string, base: string, message: string, git: SilentGit, logged: LoggedGit)
    returns (r: Result<(), SddError>, history: History)
    requires RunAll([], h1, logged) == (Ok(()), h1)
    ensures (r, history) == RunScript(MergePlan(h1, name, base, message, git), logged)
  {
    ghost var plan := MergePlan(h1, name, base, message, git);
    MergePlanExtends(h1, name, base, message, git);
    history := h1;
    var dirtyAfter := IsRepoDirty(git, history);
    if dirtyAfter.Err? {
      return Err(dirtyAfter.error), history;
    }
    if dirtyAfter.value {
      RunAllSnoc(history, ["add", "-A"], logged);
      r, history := RunLogged(history, ["add", "-A"], logged);
      if r.Err? {
        RunScriptStops(plan, history, logged);
        return;
      }
      RunAllSnoc(history, ["commit", "-m", message], logged);
      r, history := RunLogged(history, ["commit", "-m", message], logged);
      if r.Err? {
        RunScriptStops(plan, history, logged);
        return;
      }
    }
    assert history == h1 + (if dirtyAfter.value then [["add", "-A"], ["commit", "-m", message]] else []);
    var currentAfter := CurrentBranch(git, history);
    if currentAfter.Err? {
      return Err(currentAfter.error), history;
    }
    if currentAfter.value != base {
      RunAllSnoc(history, CheckoutCmd(base), logged);
      r, history := RunLogged(history, CheckoutCmd(base), logged);
      if r.Err? {
        RunScriptStops(plan, history, logged);
        return;
      }
    }
    RunAllSnoc(history, ["merge", "--no-ff", name], logged);
    r, history := RunLogged(history, ["merge", "--no-ff", name], logged);
    assert history == plan.commands;
  }

  /** One `run_git_logged`: the command is issued and its outcome returned. */
  method RunLogged(h: History, cmd: Command, logged: LoggedGit) returns (r: Result<(), SddError>, history: History)
    ensures history == h + [cmd]
    ensures r == CommandOutcome(logged(h, cmd))
  {
    history := h + [cmd];
    r := CommandOutcome(logged(h, cmd));
  }
}
