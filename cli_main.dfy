/**
 * The command-line front door: `--enable`/`--disable` feature toggles as
 * configuration overrides, how `codex resume` and `codex fork` fold their
 * own flags into the interactive command line, the precedence of `-c`
 * overrides, prompt newline normalisation, and the choice of interface.
 */
module CliMain {
  import opened Wrappers
  import opened Text

  // ---------------------------------------------------------------------------
  // Feature toggles

  /** The error text for a feature name the registry does not know. */
  function UnknownFeatureMessage(feature: string): string {
    "未知功能开关：" + feature
  }

  /** One `features.<name>=<value>` override per feature, in order. */
  function Toggles(features: seq<string>, value: string): (r: seq<string>)
    ensures |r| == |features|
    ensures forall k :: 0 <= k < |features| ==> r[k] == "features." + features[k] + "=" + value
  {
    seq(|features|, k requires 0 <= k < |features| => "features." + features[k] + "=" + value)
  }

  lemma TogglesSnoc(features: seq<string>, feature: string, value: string)
    ensures Toggles(features + [feature], value) == Toggles(features, value) + ["features." + feature + "=" + value]
  {
  }

  /** The first feature not among the known ones. */
  function FirstUnknown(features: seq<string>, known: set<string>): (r: Option<string>)
    ensures r.Some? ==> r.value in features && r.value !in known
    ensures r.None? <==> forall k :: 0 <= k < |features| ==> features[k] in known
  {
    if features == [] then None
    else if features[0] !in known then Some(features[0])
    else
      var r := FirstUnknown(features[1..], known);
      assert forall k :: 1 <= k < |features| ==> features[k] == features[1..][k - 1];
      r
  }

  /**
   * `FeatureToggles::to_overrides` as a value: every enable as `=true`,
   * then every disable as `=false`; the first unknown feature, looking at
   * the enables first, is an error.
   */
  function FeatureOverrides(enable: seq<string>, disable: seq<string>, known: set<string>): Result<seq<string>, string> {
    match FirstUnknown(enable + disable, known)
    case Some(feature) => Err(UnknownFeatureMessage(feature))
    case None => Ok(Toggles(enable, "true") + Toggles(disable, "false"))
  }

  /** The overrides succeed exactly when every feature is known, and then hold one entry per toggle. */
  lemma FeatureOverridesSpec(enable: seq<string>, disable: seq<string>, known: set<string>)
    ensures var r := FeatureOverrides(enable, disable, known);
      (r.Ok? <==> (forall k :: 0 <= k < |enable| ==> enable[k] in known) && (forall k :: 0 <= k < |disable| ==> disable[k] in known))
      && (r.Ok? ==>
            |r.value| == |enable| + |disable|
            && (forall k :: 0 <= k < |enable| ==> r.value[k] == "features." + enable[k] + "=true")
            && (forall k :: 0 <= k < |disable| ==> r.value[|enable| + k] == "features." + disable[k] + "=false"))
      && (r.Err? ==> exists f :: (f in enable || f in disable) && f !in known && r.error == UnknownFeatureMessage(f))
  {
    var all := enable + disable;
    assert forall k :: 0 <= k < |enable| ==> all[k] == enable[k];
    assert forall k :: 0 <= k < |disable| ==> all[|enable| + k] == disable[k];
    var first := FirstUnknown(all, known);
    if first.Some? {
      assert first.value in enable || first.value in disable;
    } else {
      forall k | 0 <= k < |disable|
        ensures disable[k] in known
      {
        assert all[|enable| + k] == disable[k];
      }
    }
  }

  /** After a known prefix, the first unknown feature is the first unknown of the rest. */
  lemma {:induction false} FirstUnknownAfterKnown(features: seq<string>, i: nat, known: set<string>)
    requires i <= |features|
    requires forall k :: 0 <= k < i ==> features[k] in known
    ensures FirstUnknown(features, known) == FirstUnknown(features[i..], known)
  {
    if i > 0 {
      assert features[1..][i - 1..] == features[i..];
      FirstUnknownAfterKnown(features[1..], i - 1, known);
    }
  }

  /** The enables come first in the combined run. */
  lemma KnownEnablesPrefix(enable: seq<string>, disable: seq<string>, j: nat, known: set<string>)
    requires j <= |disable|
    requires forall k :: 0 <= k < |enable| ==> enable[k] in known
    requires forall k :: 0 <= k < j ==> disable[k] in known
    ensures forall k :: 0 <= k < |enable| + j ==> (enable + disable)[k] in known
    ensures (enable + disable)[|enable| + j..] == disable[j..]
  {
    assert forall k :: |enable| <= k < |enable| + j ==> (enable + disable)[k] == disable[k - |enable|];
  }

  /** `FeatureToggles::to_overrides`, pushing one override per toggle and stopping at the first unknown feature. */
  method ToOverrides(enable: seq<string>, disable: seq<string>, known: set<string>) returns (r: Result<seq<string>, string>)
    ensures r == FeatureOverrides(enable, disable, known)
  {
    var v: seq<string> := [];
    for i := 0 to |enable|
      invariant v == Toggles(enable[..i], "true")
      invariant forall k :: 0 <= k < i ==> enable[k] in known
    {
      if enable[i] !in known {
        FirstUnknownAfterKnown(enable + disable, i, known);
        assert (enable + disable)[i..][0] == enable[i];
        return Err(UnknownFeatureMessage(enable[i]));
      }
      TogglesSnoc(enable[..i], enable[i], "true");
      assert enable[..i + 1] == enable[..i] + [enable[i]];
      v := v + ["features." + enable[i] + "=" + "true"];
    }
    assert enable[..|enable|] == enable;
    ghost var enabled := v;
    for j := 0 to |disable|
      invariant v == enabled + Toggles(disable[..j], "false")
      invariant forall k :: 0 <= k < j ==> disable[k] in known
    {
      if disable[j] !in known {
        KnownEnablesPrefix(enable, disable, j, known);
        FirstUnknownAfterKnown(enable + disable, |enable| + j, known);
        return Err(UnknownFeatureMessage(disable[j]));
      }
      TogglesSnoc(disable[..j], disable[j], "false");
      assert disable[..j + 1] == disable[..j] + [disable[j]];
      v := v + ["features." + disable[j] + "=" + "false"];
    }
    assert disable[..|disable|] == disable;
    KnownEnablesPrefix(enable, disable, |disable|, known);
    return Ok(v);
  }

  /**
   * `cli_main`'s first step: the toggles become overrides appended after the
   * root `-c` overrides, so that every subcommand receives them and a toggle
   * wins over a `-c` on the same key; an unknown feature aborts the command.
   */
  method FoldFeatureToggles(root: seq<string>, enable: seq<string>, disable: seq<string>, known: set<string>)
    returns (r: Result<seq<string>, string>)
    ensures r.Ok? <==> (forall k :: 0 <= k < |enable| ==> enable[k] in known) && (forall k :: 0 <= k < |disable| ==> disable[k] in known)
    ensures r.Err? ==> exists f :: (f in enable || f in disable) && f !in known && r.error == UnknownFeatureMessage(f)
    ensures r.Ok? ==>
      && |r.value| == |root| + |enable| + |disable|
      && r.value[..|root|] == root
      && (forall k :: 0 <= k < |enable| ==> r.value[|root| + k] == "features." + enable[k] + "=true")
      && (forall k :: 0 <= k < |disable| ==> r.value[|root| + |enable| + k] == "features." + disable[k] + "=false")
  {
    FeatureOverridesSpec(enable, disable, known);
    var toggles := ToOverrides(enable, disable, known);
    if toggles.Err? {
      return Err(toggles.error);
    }
    r := Ok(root + toggles.value);
  }

  // ---------------------------------------------------------------------------
  // Prompt newlines

  /** `replace("\r\n", "\n")`: each carriage-return-newline pair, scanning left to right, becomes a newline. */
  function ReplaceCrLf(s: string): (r: string)
    ensures |r| <= |s|
    decreases |s|
  {
    if s == [] then []
    else if |s| >= 2 && s[0] == '\r' && s[1] == '\n' then "\n" + ReplaceCrLf(s[2..])
    else [s[0]] + ReplaceCrLf(s[1..])
  }

  /** Prompts from the command line: `\r\n` and then any lone `\r` become `\n`. */
  function NormalizePrompt(s: string): (r: string)
    ensures '\r' !in r
  {
    ReplaceChar(ReplaceCrLf(s), '\r', '\n')
  }

  /** The same normalisation in one pass: every line break, whichever of the three spellings, becomes `\n`. */
  function LineBreaksToNewline(s: string): string
    decreases |s|
  {
    if s == [] then []
    else if s[0] == '\r' then "\n" + LineBreaksToNewline(if |s| >= 2 && s[1] == '\n' then s[2..] else s[1..])
    else [s[0]] + LineBreaksToNewline(s[1..])
  }

  lemma ReplaceCharCons(c: char, s: string, from: char, to: char)
    ensures ReplaceChar([c] + s, from, to) == [if c == from then to else c] + ReplaceChar(s, from, to)
  {
    assert ([c] + s)[1..] == s;
  }

  /** The two replacements together agree with the one-pass reading. */
  lemma {:induction false} NormalizePromptOnePass(s: string)
    ensures NormalizePrompt(s) == LineBreaksToNewline(s)
    decreases |s|
  {
    if s != [] {
      if |s| >= 2 && s[0] == '\r' && s[1] == '\n' {
        NormalizePromptOnePass(s[2..]);
        ReplaceCharCons('\n', ReplaceCrLf(s[2..]), '\r', '\n');
      } else {
        NormalizePromptOnePass(s[1..]);
        ReplaceCharCons(s[0], ReplaceCrLf(s[1..]), '\r', '\n');
      }
    }
  }

  /** Text without carriage returns passes through unchanged, so normalising twice changes nothing more. */
  lemma {:induction false} NormalizePromptKeepsPlainText(s: string)
    requires '\r' !in s
    ensures NormalizePrompt(s) == s
    decreases |s|
  {
    if s != [] {
      assert s[0] != '\r' && s == [s[0]] + s[1..];
      NormalizePromptKeepsPlainText(s[1..]);
      ReplaceCharCons(s[0], ReplaceCrLf(s[1..]), '\r', '\n');
    }
  }

  lemma NormalizePromptIdempotent(s: string)
    ensures NormalizePrompt(NormalizePrompt(s)) == NormalizePrompt(s)
  {
    NormalizePromptKeepsPlainText(NormalizePrompt(s));
  }

  function NormalizeOptionalPrompt(prompt: Option<string>): Option<string> {
    if prompt.Some? then Some(NormalizePrompt(prompt.value)) else None
  }

  // ---------------------------------------------------------------------------
  // Interactive command line

  /** The flags of an interactive command line that a subcommand may override. */
  datatype Flags = Flags(
    model: Option<string>,
    oss: bool,
    configProfile: Option<string>,
    sandboxMode: Option<string>,
    approvalPolicy: Option<string>,
    fullAuto: bool,
    dangerouslyBypassApprovalsAndSandbox: bool,
    cwd: Option<string>,
    webSearch: bool,
    images: seq<string>,
    addDir: seq<string>,
    prompt: Option<string>,
    rawOverrides: seq<string>)

  /** A subcommand that sets nothing. */
  const NoFlags: Flags := Flags(None, false, None, None, None, false, false, None, false, [], [], None, [])

  function Pick<T>(sub: Option<T>, base: Option<T>): Option<T> {
    if sub.Some? then sub else base
  }

  /**
   * `merge_interactive_cli_flags` on values: what the subcommand sets wins,
   * extra directories and `-c` overrides are appended, images are replaced
   * only by a non-empty list, and a subcommand prompt is normalised.
   */
  function MergeFlags(base: Flags, sub: Flags): Flags {
    Flags(
      Pick(sub.model, base.model),
      base.oss || sub.oss,
      Pick(sub.configProfile, base.configProfile),
      Pick(sub.sandboxMode, base.sandboxMode),
      Pick(sub.approvalPolicy, base.approvalPolicy),
      base.fullAuto || sub.fullAuto,
      base.dangerouslyBypassApprovalsAndSandbox || sub.dangerouslyBypassApprovalsAndSandbox,
      Pick(sub.cwd, base.cwd),
      base.webSearch || sub.webSearch,
      if sub.images != [] then sub.images else base.images,
      base.addDir + sub.addDir,
      if sub.prompt.Some? then NormalizeOptionalPrompt(sub.prompt) else base.prompt,
      base.rawOverrides + sub.rawOverrides)
  }

  /** A subcommand that sets nothing leaves the command line as it was. */
  lemma MergeNothing(base: Flags)
    ensures MergeFlags(base, NoFlags) == base
  {
  }

  /** Whatever the subcommand sets is the outcome, whatever the base said. */
  lemma MergeSubcommandWins(base1: Flags, base2: Flags, sub: Flags)
    ensures var r1, r2 := MergeFlags(base1, sub), MergeFlags(base2, sub);
      (sub.model.Some? ==> r1.model == r2.model == sub.model)
      && (sub.configProfile.Some? ==> r1.configProfile == r2.configProfile == sub.configProfile)
      && (sub.sandboxMode.Some? ==> r1.sandboxMode == r2.sandboxMode == sub.sandboxMode)
      && (sub.approvalPolicy.Some? ==> r1.approvalPolicy == r2.approvalPolicy == sub.approvalPolicy)
      && (sub.cwd.Some? ==> r1.cwd == r2.cwd == sub.cwd)
      && (sub.oss ==> r1.oss && r2.oss)
      && (sub.fullAuto ==> r1.fullAuto && r2.fullAuto)
      && (sub.webSearch ==> r1.webSearch && r2.webSearch)
      && (sub.images != [] ==> r1.images == r2.images == sub.images)
      && (sub.prompt.Some? ==> r1.prompt == r2.prompt && '\r' !in r1.prompt.value)
  {
  }

  /** Merging two subcommands one after the other is merging their combination once. */
  lemma MergeAssociative(base: Flags, s1: Flags, s2: Flags)
    ensures MergeFlags(MergeFlags(base, s1), s2) == MergeFlags(base, MergeFlags(s1, s2))
  {
    var left, right := MergeFlags(MergeFlags(base, s1), s2), MergeFlags(base, MergeFlags(s1, s2));
    if s2.prompt.Some? {
      NormalizePromptIdempotent(s2.prompt.value);
    }
    assert left.prompt == right.prompt;
    assert left.addDir == right.addDir;
    assert left.rawOverrides == right.rawOverrides;
    assert left.images == right.images;
  }

  datatype TuiFrontend = Tui | Tui2

  /** `select_tui_frontend`: the second interface exactly when its feature is on. */
  function SelectTuiFrontend(tui2Enabled: bool): (r: TuiFrontend)
    ensures r == Tui2 <==> tui2Enabled
  {
    if tui2Enabled then Tui2 else Tui
  }

  /** How `resume` or `fork` picks its session: the picker, the most recent one, or a named one. */
  datatype SessionTarget = SessionTarget(picker: bool, last: bool, sessionId: Option<string>, showAll: bool)

  const NoSessionTarget: SessionTarget := SessionTarget(false, false, None, false)

  /** The picker opens exactly when neither a session id nor `--last` was given. */
  function ChooseSession(sessionId: Option<string>, last: bool, showAll: bool): (r: SessionTarget)
    ensures r.picker <==> sessionId.None? && !last
    ensures r.last == last && r.sessionId == sessionId && r.showAll == showAll
  {
    SessionTarget(sessionId.None? && !last, last, sessionId, showAll)
  }

  /** The interactive command line, completed in place for `resume` and `fork`. */
  class TuiCli {
    var flags: Flags
    var resume: SessionTarget
    var fork: SessionTarget

    constructor(flags: Flags)
      ensures this.flags == flags && resume == NoSessionTarget && fork == NoSessionTarget
    {
      this.flags := flags;
      resume := NoSessionTarget;
      fork := NoSessionTarget;
    }

    /** `merge_interactive_cli_flags`: the subcommand's own flags, consumed, override this command line's. */
    method MergeInteractiveCliFlags(sub: Flags)
      modifies this
      ensures flags == MergeFlags(old(flags), sub)
      ensures resume == old(resume) && fork == old(fork)
    {
      var model, oss, profile, sandbox, approval := flags.model, flags.oss, flags.configProfile, flags.sandboxMode, flags.approvalPolicy;
      var fullAuto, bypass, cwd, webSearch := flags.fullAuto, flags.dangerouslyBypassApprovalsAndSandbox, flags.cwd, flags.webSearch;
      var images, addDir, prompt, overrides := flags.images, flags.addDir, flags.prompt, flags.rawOverrides;
      if sub.model.Some? {
        model := sub.model;
      }
      if sub.oss {
        oss := true;
      }
      if sub.configProfile.Some? {
        profile := sub.configProfile;
      }
      if sub.sandboxMode.Some? {
        sandbox := sub.sandboxMode;
      }
      if sub.approvalPolicy.Some? {
        approval := sub.approvalPolicy;
      }
      if sub.fullAuto {
        fullAuto := true;
      }
      if sub.dangerouslyBypassApprovalsAndSandbox {
        bypass := true;
      }
      if sub.cwd.Some? {
        cwd := sub.cwd;
      }
      if sub.webSearch {
        webSearch := true;
      }
      if sub.images != [] {
        images := sub.images;
      }
      if sub.addDir != [] {
        addDir := addDir + sub.addDir;
      }
      if sub.prompt.Some? {
        prompt := Some(NormalizePrompt(sub.prompt.value));
      }
      overrides := overrides + sub.rawOverrides;
      flags := Flags(model, oss, profile, sandbox, approval, fullAuto, bypass, cwd, webSearch, images, addDir, prompt, overrides);
    }

    /** `prepend_config_flags`: the root overrides go first, so anything after them wins. */
    method PrependConfigFlags(root: seq<string>)
      modifies this
      ensures flags == old(flags).(rawOverrides := root + old(flags.rawOverrides))
      ensures resume == old(resume) && fork == old(fork)
    {
      flags := flags.(rawOverrides := root + flags.rawOverrides);
    }

    /** Normalises the prompt's line breaks before the interface starts. */
    method NormalizePromptField()
      modifies this
      ensures flags == old(flags).(prompt := NormalizeOptionalPrompt(old(flags.prompt)))
      ensures flags.prompt.Some? ==> '\r' !in flags.prompt.value
      ensures resume == old(resume) && fork == old(fork)
    {
      if flags.prompt.Some? {
        flags := flags.(prompt := Some(NormalizePrompt(flags.prompt.value)));
      }
    }

    /**
     * `finalize_resume_interactive`: records how to pick the session; the
     * resume flags win over the top-level ones, and the overrides run root,
     * then top level, then subcommand.
     */
    method FinalizeResumeInteractive(root: seq<string>, sessionId: Option<string>, last: bool, showAll: bool, resumeCli: Flags)
      modifies this
      ensures resume == ChooseSession(sessionId, last, showAll) && fork == old(fork)
      ensures var merged := MergeFlags(old(flags), resumeCli);
        flags == merged.(rawOverrides := root + merged.rawOverrides)
      ensures flags.rawOverrides == root + old(flags.rawOverrides) + resumeCli.rawOverrides
    {
      resume := resume.(picker := sessionId.None? && !last);
      resume := resume.(last := last);
      resume := resume.(sessionId := sessionId);
      resume := resume.(showAll := showAll);
      MergeInteractiveCliFlags(resumeCli);
      PrependConfigFlags(root);
    }

    /** `finalize_fork_interactive`: the same as resume, for the fork session. */
    method FinalizeForkInteractive(root: seq<string>, sessionId: Option<string>, last: bool, showAll: bool, forkCli: Flags)
      modifies this
      ensures fork == ChooseSession(sessionId, last, showAll) && resume == old(resume)
      ensures var merged := MergeFlags(old(flags), forkCli);
        flags == merged.(rawOverrides := root + merged.rawOverrides)
      ensures flags.rawOverrides == root + old(flags.rawOverrides) + forkCli.rawOverrides
    {
      fork := fork.(picker := sessionId.None? && !last);
      fork := fork.(last := last);
      fork := fork.(sessionId := sessionId);
      fork := fork.(showAll := showAll);
      MergeInteractiveCliFlags(forkCli);
      PrependConfigFlags(root);
    }
  }
}
