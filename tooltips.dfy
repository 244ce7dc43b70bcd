/**
 * Start-up tooltips of the second terminal interface: a fixed list per
 * language followed by the announcements of experimental features, one of
 * which is drawn at random, unless a remote announcement applies today.
 */
module Tooltips {
  import opened Wrappers

  datatype Language = En | ZhCn

  /** The translated tooltips of each language; `tr_list` is not part of this model. */
  datatype Catalog = Catalog(english: seq<string>, chinese: seq<string>)

  /** `beta_tooltips`: the announcement of every feature stage that has one, in registry order. */
  function BetaTooltips(stageAnnouncements: seq<Option<string>>): (r: seq<string>)
    ensures |r| <= |stageAnnouncements|
  {
    if stageAnnouncements == [] then []
    else
      (if stageAnnouncements[0].Some? then [stageAnnouncements[0].value] else [])
      + BetaTooltips(stageAnnouncements[1..])
  }

  /** A tip is among the beta tooltips exactly when some stage announces it. */
  lemma {:induction false} BetaTooltipsMembers(stageAnnouncements: seq<Option<string>>, tip: string)
    ensures tip in BetaTooltips(stageAnnouncements) <==> Some(tip) in stageAnnouncements
  {
    if stageAnnouncements != [] {
      BetaTooltipsMembers(stageAnnouncements[1..], tip);
      assert Some(tip) in stageAnnouncements <==> stageAnnouncements[0] == Some(tip) || Some(tip) in stageAnnouncements[1..];
    }
  }

  /** `ALL_TOOLTIPS_EN` / `ALL_TOOLTIPS_ZH`: the language's own tips, then the beta ones. */
  function AllTooltips(language: Language, catalog: Catalog, beta: seq<string>): (r: seq<string>)
    ensures |r| == |(if language == En then catalog.english else catalog.chinese)| + |beta|
    ensures language == En ==> r[..|catalog.english|] == catalog.english && r[|catalog.english|..] == beta
    ensures language == ZhCn ==> r[..|catalog.chinese|] == catalog.chinese && r[|catalog.chinese|..] == beta
  {
    match language
    case En => catalog.english + beta
    case ZhCn => catalog.chinese + beta
  }

  /**
   * `pick_tooltip`, with the random draw as a parameter: the generator
   * yields an index below the length of a non-empty list.
   */
  function PickTooltip(tooltips: seq<string>, draw: nat): (r: Option<string>)
    requires tooltips != [] ==> draw < |tooltips|
    ensures r.None? <==> tooltips == []
    ensures r.Some? ==> r.value in tooltips
  {
    if tooltips == [] then None else Some(tooltips[draw])
  }

  /** Every tooltip of the list is the one shown for some draw. */
  lemma EveryTooltipCanBePicked(tooltips: seq<string>, tip: string)
    requires tip in tooltips
    ensures exists draw: nat :: draw < |tooltips| && PickTooltip(tooltips, draw) == Some(tip)
  {
    var i :| 0 <= i < |tooltips| && tooltips[i] == tip;
    assert PickTooltip(tooltips, i) == Some(tip);
  }

  /** `random_tooltip`: an announcement that applies wins over the drawn tooltip. */
  function RandomTooltip(announcement: Option<string>, language: Language, catalog: Catalog, beta: seq<string>, draw: nat): (r: Option<string>)
    requires var all := AllTooltips(language, catalog, beta); all != [] ==> draw < |all|
    ensures announcement.Some? ==> r == announcement
    ensures announcement.None? ==> r == PickTooltip(AllTooltips(language, catalog, beta), draw)
  {
    if announcement.Some? then announcement else PickTooltip(AllTooltips(language, catalog, beta), draw)
  }

  // ---------------------------------------------------------------------------
  // Remote announcements

  /** A calendar date, ordered as chrono's `NaiveDate`. */
  datatype Date = Date(year: int, month: nat, day: nat)

  predicate DateLe(a: Date, b: Date) {
    a.year < b.year
    || (a.year == b.year && (a.month < b.month || (a.month == b.month && a.day <= b.day)))
  }

  /** The order on dates is total and transitive. */
  lemma DateLeTotalOrder(a: Date, b: Date, c: Date)
    ensures DateLe(a, a)
    ensures DateLe(a, b) || DateLe(b, a)
    ensures DateLe(a, b) && DateLe(b, a) ==> a == b
    ensures DateLe(a, b) && DateLe(b, c) ==> DateLe(a, c)
  {
  }

  /** One `[[announcements]]` entry as written in the TOML document. */
  datatype RawTip = RawTip(
    content: string,
    fromDate: Option<string>,
    toDate: Option<string>,
    versionRegex: Option<string>,
    targetApp: Option<string>)

  /** The entry after its dates and version pattern are read; what cannot be read is absent. */
  datatype Tip = Tip(
    content: string,
    fromDate: Option<Date>,
    toDate: Option<Date>,
    versionRegex: Option<string>,
    targetApp: string)

  /**
   * What the filter needs from outside: today's date, the `%Y-%m-%d`
   * date reader, whether a pattern is a valid regular expression, and
   * whether a valid pattern matches the running CLI's version.
   */
  datatype Environment = Environment(
    today: Date,
    parseDate: string -> Option<Date>,
    isValidRegex: string -> bool,
    matchesVersion: string -> bool)

  const DefaultTargetApp := "codex-cli"

  function ReadDate(env: Environment, date: Option<string>): (r: Option<Date>)
    ensures r.Some? <==> date.Some? && env.parseDate(date.value).Some?
  {
    if date.Some? then env.parseDate(date.value) else None
  }

  function Resolve(raw: RawTip, env: Environment): (r: Tip)
    ensures r.content == raw.content
    ensures r.targetApp == if raw.targetApp.Some? then raw.targetApp.value else DefaultTargetApp
    ensures r.versionRegex.Some? <==> raw.versionRegex.Some? && env.isValidRegex(raw.versionRegex.value)
  {
    Tip(
      raw.content,
      ReadDate(env, raw.fromDate),
      ReadDate(env, raw.toDate),
      if raw.versionRegex.Some? && env.isValidRegex(raw.versionRegex.value) then raw.versionRegex else None,
      if raw.targetApp.Some? then raw.targetApp.value else DefaultTargetApp)
  }

  /** The four filters of the chain, in their order. */
  predicate Applies(tip: Tip, env: Environment) {
    && tip.targetApp == DefaultTargetApp
    && (tip.fromDate.None? || DateLe(tip.fromDate.value, env.today))
    && (tip.toDate.None? || DateLe(env.today, tip.toDate.value))
    && (tip.versionRegex.None? || env.matchesVersion(tip.versionRegex.value))
  }

  /** The content of the first entry that applies. */
  function FirstApplying(raws: seq<RawTip>, env: Environment): (r: Option<string>)
  {
    if raws == [] then None
    else if Applies(Resolve(raws[0], env), env) then Some(raws[0].content)
    else FirstApplying(raws[1..], env)
  }

  /**
   * `parse_announcement_tip_toml`, with the TOML reader's outcome as the
   * parameter: `None` for a document that does not parse.
   */
  function ParseAnnouncementTip(document: Option<seq<RawTip>>, env: Environment): (r: Option<string>)
    ensures document.None? ==> r.None?
  {
    if document.None? then None else FirstApplying(document.value, env)
  }

  /**
   * The result is the content of an entry that applies and that no earlier
   * entry applies; there is none exactly when no entry applies.
   */
  lemma {:induction false} FirstApplyingSpec(raws: seq<RawTip>, env: Environment)
    ensures var r := FirstApplying(raws, env);
      && (r.None? <==> forall i :: 0 <= i < |raws| ==> !Applies(Resolve(raws[i], env), env))
      && (r.Some? ==> exists i :: 0 <= i < |raws| && Applies(Resolve(raws[i], env), env) && r.value == raws[i].content
                        && forall j :: 0 <= j < i ==> !Applies(Resolve(raws[j], env), env))
  {
    if raws != [] {
      FirstApplyingSpec(raws[1..], env);
      if !Applies(Resolve(raws[0], env), env) {
        assert forall i :: 1 <= i < |raws| ==> raws[i] == raws[1..][i - 1];
        var r := FirstApplying(raws, env);
        if r.Some? {
          var k :| 0 <= k < |raws[1..]| && Applies(Resolve(raws[1..][k], env), env) && r.value == raws[1..][k].content
            && forall j :: 0 <= j < k ==> !Applies(Resolve(raws[1..][j], env), env);
          assert forall j :: 0 <= j < k + 1 ==> !Applies(Resolve(raws[j], env), env) by {
            forall j | 0 <= j < k + 1
              ensures !Applies(Resolve(raws[j], env), env)
            {
              if j > 0 {
                assert raws[j] == raws[1..][j - 1];
              }
            }
          }
        }
      } else {
        assert Applies(Resolve(raws[0], env), env);
      }
    }
  }

  /** An entry without a target app is meant for the CLI; any other target is never shown. */
  lemma TargetAppDefault(raw: RawTip, env: Environment)
    ensures raw.targetApp.None? ==> Resolve(raw, env).targetApp == DefaultTargetApp
    ensures raw.targetApp.Some? && raw.targetApp.value != DefaultTargetApp ==> !Applies(Resolve(raw, env), env)
  {
  }

  /** Both ends of the date window are inclusive. */
  lemma DateWindowInclusive(tip: Tip, env: Environment)
    requires tip.targetApp == DefaultTargetApp && tip.versionRegex.None?
    requires tip.fromDate == Some(env.today) && tip.toDate == Some(env.today)
    ensures Applies(tip, env)
  {
    DateLeTotalOrder(env.today, env.today, env.today);
  }

  /** A date before the window or after it keeps the entry back. */
  lemma DateWindowExcludes(tip: Tip, env: Environment)
    ensures tip.fromDate.Some? && !DateLe(tip.fromDate.value, env.today) ==> !Applies(tip, env)
    ensures tip.toDate.Some? && !DateLe(env.today, tip.toDate.value) ==> !Applies(tip, env)
  {
  }

  /** A date that cannot be read is treated as no date at all. */
  lemma UnreadableDateIsAbsent(raw: RawTip, env: Environment)
    ensures raw.fromDate.Some? && env.parseDate(raw.fromDate.value).None? ==>
      Resolve(raw, env) == Resolve(raw.(fromDate := None), env)
    ensures raw.toDate.Some? && env.parseDate(raw.toDate.value).None? ==>
      Resolve(raw, env) == Resolve(raw.(toDate := None), env)
  {
  }

  /** An invalid version pattern is treated as no pattern; a valid one must match the version. */
  lemma VersionPatternFilter(raw: RawTip, env: Environment)
    ensures raw.versionRegex.Some? && !env.isValidRegex(raw.versionRegex.value) ==>
      Resolve(raw, env) == Resolve(raw.(versionRegex := None), env)
    ensures raw.versionRegex.Some? && env.isValidRegex(raw.versionRegex.value) && !env.matchesVersion(raw.versionRegex.value) ==>
      !Applies(Resolve(raw, env), env)
  {
  }
}
