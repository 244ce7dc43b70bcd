/**
 * The second terminal interface's update action: only the releases page,
 * handed over to the first interface's action when the session ends.
 */
module UpdateActionTui2 {
  import opened Wrappers
  import Tui = UpdateActionTui

  datatype UpdateAction = OpenReleasePage

  const ReleasePageUrl := "https://github.com/yuemingruoan/better-codex/releases"

  /** The conversion into the first interface's action keeps what the user is sent to. */
  function ToTui(action: UpdateAction): (r: Tui.UpdateAction)
    ensures Tui.CommandArgs(r) == ("", [])
    ensures Tui.ReleaseUrl(r) == ReleaseUrl(action)
  {
    match action
    case OpenReleasePage => Tui.OpenReleasePage
  }

  /** The way back, defined for the one action both interfaces share. */
  function FromTui(action: Tui.UpdateAction): (r: Option<UpdateAction>)
  {
    if action == Tui.OpenReleasePage then Some(OpenReleasePage) else None
  }

  lemma ToTuiRoundTrip(action: UpdateAction)
    ensures FromTui(ToTui(action)) == Some(action)
  {
  }

  /** Only the releases page comes back from the first interface. */
  lemma FromTuiOnlyReleasePage(action: Tui.UpdateAction)
    ensures FromTui(action).Some? <==> Tui.CommandArgs(action).0 == ""
  {
  }

  /** `release_url`: the same page as the first interface's. */
  function ReleaseUrl(action: UpdateAction): (r: string)
    ensures r == Tui.ReleasePageUrl
  {
    ReleasePageUrl
  }

  /** `get_update_action` in a release build. */
  function GetUpdateAction(): (r: Option<UpdateAction>)
    ensures r.Some? && ToTui(r.value) == Tui.OpenReleasePage
  {
    Some(OpenReleasePage)
  }
}
