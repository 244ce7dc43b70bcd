/**
 * What the first terminal interface offers once a newer release exists:
 * the command to run for each way of installing, or the releases page.
 */
module UpdateActionTui {
  import opened Wrappers

  datatype UpdateAction = OpenReleasePage | NpmGlobalLatest | BunGlobalLatest | BrewUpgrade

  const ReleasePageUrl := "https://github.com/yuemingruoan/better-codex/releases"

  /** `command_args`: the program and its arguments; opening the page runs nothing. */
  function CommandArgs(action: UpdateAction): (r: (string, seq<string>))
    ensures r.0 == "" <==> action == OpenReleasePage
    ensures r.0 == "" ==> r.1 == []
    ensures r.0 in {"npm", "bun"} ==> r.1 == ["install", "-g", "@openai/codex"]
    ensures r.0 == "brew" ==> r.1 == ["upgrade", "--cask", "codex"]
  {
    match action
    case NpmGlobalLatest => ("npm", ["install", "-g", "@openai/codex"])
    case BunGlobalLatest => ("bun", ["install", "-g", "@openai/codex"])
    case BrewUpgrade => ("brew", ["upgrade", "--cask", "codex"])
    case OpenReleasePage => ("", [])
  }

  /** The action whose command starts with the given program, if any. */
  function ActionForProgram(program: string): (r: Option<UpdateAction>)
  {
    if program == "npm" then Some(NpmGlobalLatest)
    else if program == "bun" then Some(BunGlobalLatest)
    else if program == "brew" then Some(BrewUpgrade)
    else if program == "" then Some(OpenReleasePage)
    else None
  }

  /** The program names the action: no two actions share a command. */
  lemma CommandArgsRoundTrip(action: UpdateAction)
    ensures ActionForProgram(CommandArgs(action).0) == Some(action)
  {
  }

  lemma CommandArgsInjective(a: UpdateAction, b: UpdateAction)
    ensures CommandArgs(a) == CommandArgs(b) ==> a == b
  {
    CommandArgsRoundTrip(a);
    CommandArgsRoundTrip(b);
  }

  /** `release_url`: every action points at the same releases page. */
  function ReleaseUrl(action: UpdateAction): (r: string)
    ensures r == ReleasePageUrl
  {
    ReleasePageUrl
  }

  lemma ReleaseUrlSameForAll(a: UpdateAction, b: UpdateAction)
    ensures ReleaseUrl(a) == ReleaseUrl(b)
  {
  }

  /** `get_update_action` in a release build: always the releases page. */
  function GetUpdateAction(): (r: Option<UpdateAction>)
    ensures r.Some? && CommandArgs(r.value) == ("", [])
  {
    Some(OpenReleasePage)
  }
}
