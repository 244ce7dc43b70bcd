/**
 * Pure helpers of the chat widget: the rate-limit window label, the SDD
 * branch slug with the branch name and commit message built from it, the
 * first bold span of streamed Markdown, skill mentions, timeout detection,
 * the initial user message, the order of the automatic models, and the
 * one-shot plan-rework prefix the widget keeps between submissions.
 */
module ChatWidget {
  import opened Wrappers
  import opened Text
  import SddGit

  // ---------------------------------------------------------------------------
  // Rate-limit window label

  const MinutesPerHour: int := 60
  const MinutesPerDay: int := 24 * MinutesPerHour
  const MinutesPerWeek: int := 7 * MinutesPerDay
  const MinutesPerMonth: int := 30 * MinutesPerDay
  const RoundingBiasMinutes: int := 3

  /** The label a rate-limit window gets: a number of hours, or a named period. */
  datatype LimitWindow = Hours(hours: nat) | Weekly | Monthly | Annual

  /**
   * Negative windows count as zero. Up to a day (with a three-minute bias)
   * the window is given in whole hours, at least one, rounded down after the
   * bias; past that it is weekly, monthly or annual, each with the same bias.
   */
  function ClassifyLimitWindow(windowsMinutes: int): (r: LimitWindow)
    ensures var w := if windowsMinutes < 0 then 0 else windowsMinutes;
      && (r.Hours? <==> w <= MinutesPerDay + RoundingBiasMinutes)
      && (r.Weekly? <==> MinutesPerDay + RoundingBiasMinutes < w <= MinutesPerWeek + RoundingBiasMinutes)
      && (r.Monthly? <==> MinutesPerWeek + RoundingBiasMinutes < w <= MinutesPerMonth + RoundingBiasMinutes)
      && (r.Annual? <==> MinutesPerMonth + RoundingBiasMinutes < w)
      && (r.Hours? ==>
            && 1 <= r.hours <= 24
            && (r.hours == 1 || r.hours * MinutesPerHour <= w + RoundingBiasMinutes)
            && w + RoundingBiasMinutes < (r.hours + 1) * MinutesPerHour)
  {
    var w := if windowsMinutes < 0 then 0 else windowsMinutes;
    if w <= MinutesPerDay + RoundingBiasMinutes then
      var hours := (w + RoundingBiasMinutes) / MinutesPerHour;
      Hours(if hours < 1 then 1 else hours)
    else if w <= MinutesPerWeek + RoundingBiasMinutes then Weekly
    else if w <= MinutesPerMonth + RoundingBiasMinutes then Monthly
    else Annual
  }

  function LimitWindowText(l: LimitWindow): string {
    match l
    case Hours(h) => NatToString(h) + "h"
    case Weekly => "weekly"
    case Monthly => "monthly"
    case Annual => "annual"
  }

  /** `get_limits_duration`: the label of a window, as shown in the status output. */
  function GetLimitsDuration(windowsMinutes: int): string {
    LimitWindowText(ClassifyLimitWindow(windowsMinutes))
  }

  /** The rank of a label from the shortest period to the longest. */
  function LimitRank(l: LimitWindow): nat {
    match l
    case Hours(_) => 0
    case Weekly => 1
    case Monthly => 2
    case Annual => 3
  }

  /** A longer window never gets a shorter label, nor fewer hours. */
  lemma LimitWindowMonotone(a: int, b: int)
    requires a <= b
    ensures LimitRank(ClassifyLimitWindow(a)) <= LimitRank(ClassifyLimitWindow(b))
    ensures ClassifyLimitWindow(a).Hours? && ClassifyLimitWindow(b).Hours? ==>
      ClassifyLimitWindow(a).hours <= ClassifyLimitWindow(b).hours
  {
    var wa := if a < 0 then 0 else a;
    var wb := if b < 0 then 0 else b;
    if ClassifyLimitWindow(a).Hours? && ClassifyLimitWindow(b).Hours? {
      assert (wa + RoundingBiasMinutes) / MinutesPerHour <= (wb + RoundingBiasMinutes) / MinutesPerHour;
    }
  }

  /** Different labels read differently: the text determines the label. */
  lemma LimitWindowTextInjective(a: LimitWindow, b: LimitWindow)
    requires LimitWindowText(a) == LimitWindowText(b)
    ensures a == b
  {
    if a.Hours? && b.Hours? {
      var ta := NatToString(a.hours);
      var tb := NatToString(b.hours);
      assert ta == (ta + "h")[..|ta|];
      assert tb == (tb + "h")[..|tb|];
      NatToStringInjective(a.hours, b.hours);
    } else if a.Hours? {
      HoursTextEndsWithH(a.hours);
      assert false;
    } else if b.Hours? {
      HoursTextEndsWithH(b.hours);
      assert false;
    }
  }

  lemma HoursTextEndsWithH(h: nat)
    ensures var t := NatToString(h) + "h"; t[|t| - 1] == 'h'
  {
  }

  // ---------------------------------------------------------------------------
  // SDD branch slug

  const SddBranchPrefix: string := "sdd/"
  const MaxSlugLen: nat := 32
  const DefaultSlug: string := "task"

  predicate IsSlugChar(c: char) {
    IsAsciiLower(c) || IsAsciiDigit(c) || c == '-'
  }

  predicate SlugChars(s: string) {
    forall i :: 0 <= i < |s| ==> IsSlugChar(s[i])
  }

  predicate NoDoubleDash(s: string) {
    forall i :: 0 < i < |s| ==> !(s[i - 1] == '-' && s[i] == '-')
  }

  /** What a slug looks like: 1 to 32 lower-case letters, digits and single inner dashes. */
  predicate IsSlug(s: string) {
    && 1 <= |s| <= MaxSlugLen
    && SlugChars(s)
    && NoDoubleDash(s)
    && s[0] != '-' && s[|s| - 1] != '-'
  }

  /**
   * The description with ASCII letters and digits lower-cased and every run
   * of other characters collapsed to one dash; `prevDash` says whether a
   * dash was just written.
   */
  function Collapse(s: string, prevDash: bool): (r: string)
    ensures |r| <= |s|
    ensures SlugChars(r) && NoDoubleDash(r)
    ensures prevDash && r != [] ==> r[0] != '-'
  {
    if s == [] then []
    else if IsAsciiAlnum(s[0]) then [AsciiLower(s[0])] + Collapse(s[1..], false)
    else if !prevDash then "-" + Collapse(s[1..], true)
    else Collapse(s[1..], true)
  }

  /** The collapsed description, cut at 32 characters. */
  function RawSlug(description: string): (r: string)
    ensures SlugChars(r) && NoDoubleDash(r) && |r| <= MaxSlugLen
  {
    var c := Collapse(description, false);
    if |c| <= MaxSlugLen then c else c[..MaxSlugLen]
  }

  /** `sdd_slug`: the raw slug with its edge dashes trimmed, or "task" when nothing is left. */
  function Slug(description: string): string {
    var t := TrimChar(RawSlug(description), '-');
    if t == [] then DefaultSlug else t
  }

  /** Every slug is well formed. */
  lemma SlugIsSlug(description: string)
    ensures IsSlug(Slug(description))
  {
    var raw := RawSlug(description);
    var a, b := TrimCharSlice(raw, '-');
    var t := raw[a..b];
    if t != [] {
      forall i | 0 <= i < |t|
        ensures IsSlugChar(t[i])
      {
        assert t[i] == raw[a + i];
      }
      forall i | 0 < i < |t|
        ensures !(t[i - 1] == '-' && t[i] == '-')
      {
        assert t[i - 1] == raw[a + i - 1] && t[i] == raw[a + i];
      }
    } else {
      assert DefaultSlug[0] == 't';
    }
  }

  /** A string with no dash at either end and no double dash collapses to itself. */
  lemma {:induction false} CollapseSlug(s: string, prevDash: bool)
    requires SlugChars(s) && NoDoubleDash(s)
    requires s != [] && prevDash ==> s[0] != '-'
    ensures Collapse(s, prevDash) == s
  {
    if s != [] {
      var c := s[0];
      assert IsSlugChar(c);
      assert SlugChars(s[1..]) && NoDoubleDash(s[1..]) by {
        forall i | 0 < i < |s[1..]|
          ensures !(s[1..][i - 1] == '-' && s[1..][i] == '-')
        {
          assert s[1..][i - 1] == s[i] && s[1..][i] == s[i + 1];
        }
      }
      if |s| > 1 {
        assert s[1..][0] == s[1];
      }
      CollapseSlug(s[1..], c == '-');
      assert s == [c] + s[1..];
    }
  }

  /** The slug of a slug is itself: slugs are fixed points. */
  lemma SlugIdempotent(description: string)
    ensures Slug(Slug(description)) == Slug(description)
  {
    var s := Slug(description);
    SlugIsSlug(description);
    CollapseSlug(s, false);
    assert RawSlug(s) == s;
    assert TrimCharStart(s, '-') == s;
    assert TrimCharEnd(s, '-') == s;
  }

  /** Collapsing the rest of the input after one more character was consumed. */
  lemma CollapseStep(s: string, i: nat, prevDash: bool)
    requires i < |s|
    ensures Collapse(s[i..], prevDash)
      == if IsAsciiAlnum(s[i]) then [AsciiLower(s[i])] + Collapse(s[i + 1..], false)
         else if !prevDash then "-" + Collapse(s[i + 1..], true)
         else Collapse(s[i + 1..], true)
  {
    assert s[i..][1..] == s[i + 1..];
  }

  /** What one input character adds to the slug, after a dash or not. */
  function SlugPiece(ch: char, prevDash: bool): (r: string)
    ensures |r| <= 1
  {
    if IsAsciiAlnum(ch) then [AsciiLower(ch)] else if !prevDash then "-" else []
  }

  /** The loop's state: what was written, then the rest collapsed, is the whole collapsed input. */
  predicate SlugScan(description: string, i: nat, written: string, prevDash: bool) {
    i <= |description| && written + Collapse(description[i..], prevDash) == Collapse(description, false)
  }

  lemma SlugScanStep(description: string, i: nat, written: string, prevDash: bool)
    requires i < |description| && SlugScan(description, i, written, prevDash)
    ensures SlugScan(description, i + 1, written + SlugPiece(description[i], prevDash), !IsAsciiAlnum(description[i]))
  {
    CollapseStep(description, i, prevDash);
    var rest := Collapse(description[i + 1..], !IsAsciiAlnum(description[i]));
    var piece := SlugPiece(description[i], prevDash);
    assert Collapse(description[i..], prevDash) == piece + rest;
    assert (written + piece) + rest == written + (piece + rest);
  }

  /** The loop stops at the end of the input, or once 32 characters are written: both give the raw slug. */
  lemma SlugScanDone(description: string, i: nat, written: string, prevDash: bool)
    requires SlugScan(description, i, written, prevDash)
    requires (i == |description| && |written| <= MaxSlugLen) || |written| == MaxSlugLen
    ensures written == RawSlug(description)
  {
    var rest := Collapse(description[i..], prevDash);
    if i == |description| {
      assert description[i..] == [];
      assert written + [] == written;
    } else {
      assert (written + rest)[..|written|] == written;
      if |rest| == 0 {
        assert written + rest == written;
      }
    }
  }

  /** The scanning loop of `sdd_slug`: one pass that stops once 32 characters are written. */
  method ScanSlug(description: string) returns (slug: string)
    ensures slug == RawSlug(description)
  {
    slug := [];
    var prevDash := false;
    var i := 0;
    while i < |description|
      invariant SlugScan(description, i, slug, prevDash)
      invariant |slug| < MaxSlugLen
    {
      var ch := description[i];
      SlugScanStep(description, i, slug, prevDash);
      if IsAsciiAlnum(ch) {
        slug := slug + [AsciiLower(ch)];
        prevDash := false;
      } else if !prevDash {
        slug := slug + "-";
        prevDash := true;
      }
      i := i + 1;
      if |slug| >= MaxSlugLen {
        break;
      }
    }
    SlugScanDone(description, i, slug, prevDash);
  }

  /** `sdd_slug`: the scanned slug with its edge dashes trimmed, or "task" when nothing is left. */
  method SddSlug(description: string) returns (slug: string)
    ensures slug == Slug(description)
    ensures IsSlug(slug)
  {
    var raw := ScanSlug(description);
    var trimmed := TrimChar(raw, '-');
    if trimmed == [] {
      slug := DefaultSlug;
    } else {
      slug := trimmed;
    }
    SlugIsSlug(description);
  }

  /** `sdd_branch_name`: the slug under the `sdd/` prefix. */
  function SddBranchName(description: string): (r: string)
    ensures StartsWith(r, SddBranchPrefix) && IsSlug(r[|SddBranchPrefix|..])
  {
    SlugIsSlug(description);
    var r := SddBranchPrefix + Slug(description);
    assert r[..|SddBranchPrefix|] == SddBranchPrefix && r[|SddBranchPrefix|..] == Slug(description);
    r
  }

  /** `sdd_commit_message`: "sdd: " and the same slug. */
  function SddCommitMessage(description: string): (r: string)
    ensures r == "sdd: " + SddBranchName(description)[|SddBranchPrefix|..]
  {
    "sdd: " + Slug(description)
  }

  /** Every branch name the widget generates passes the git task's branch check. */
  lemma GeneratedBranchAccepted(description: string)
    ensures SddGit.EnsureSddBranch(SddBranchName(description)).Ok?
  {
    var name := SddBranchName(description);
    var s := Slug(description);
    SlugIsSlug(description);
    assert name == SddBranchPrefix + s;
    forall i | 0 <= i < |name|
      ensures IsSlugChar(name[i]) || name[i] == '/'
    {
      if i >= |SddBranchPrefix| {
        assert name[i] == s[i - |SddBranchPrefix|];
      }
    }
    BranchCharsValid(name);
    assert StartsWith(name, SddGit.BranchPrefix);
  }

  /** Letters, digits, dashes and slashes contain no whitespace and no `..`. */
  lemma BranchCharsValid(name: string)
    requires forall i :: 0 <= i < |name| ==> IsSlugChar(name[i]) || name[i] == '/'
    ensures !SddGit.HasWhitespace(name) && !Contains(name, "..")
  {
    if Contains(name, "..") {
      var i :| 0 <= i <= |name| && OccursAt(name, "..", i);
      OccurrenceStartsWith(name, "..", i);
      assert false;
    }
  }

  lemma OccurrenceStartsWith(s: string, p: string, i: int)
    requires OccursAt(s, p, i) && p != []
    ensures s[i] == p[0]
  {
    assert s[i..i + |p|][0] == s[i];
  }

  // ---------------------------------------------------------------------------
  // First bold span

  const BoldMarker: string := "**"

  /**
   * The first `**`, the next `**` after it, and the text between them
   * trimmed; nothing when there is no opening or no closing marker yet, or
   * when the text between is blank.
   */
  function FirstBold(s: string): Option<string> {
    match FindFrom(s, BoldMarker, 0)
    case None => None
    case Some(i) =>
      match FindFrom(s, BoldMarker, i + 2)
      case None => None
      case Some(j) =>
        var t := Trim(s[i + 2..j]);
        if t == [] then None else Some(t)
  }

  /** A bold span found is non-blank, has nothing to trim and occurs in the input. */
  lemma FirstBoldShape(s: string)
    requires FirstBold(s).Some?
    ensures var t := FirstBold(s).value; t != [] && Trim(t) == t && Contains(s, t)
  {
    var i := FindFrom(s, BoldMarker, 0).value;
    var j := FindFrom(s, BoldMarker, i + 2).value;
    TrimmedSliceContained(s, i + 2, j);
  }

  /** The trimmed text between two positions has nothing to trim and occurs in the input. */
  lemma TrimmedSliceContained(s: string, lo: nat, hi: nat)
    requires lo <= hi <= |s|
    ensures Trim(Trim(s[lo..hi])) == Trim(s[lo..hi]) && Contains(s, Trim(s[lo..hi]))
  {
    var inner := s[lo..hi];
    TrimIdempotent(inner);
    var t := Trim(inner);
    var a := TrimIsSlice(inner);
    var n := |t|;
    assert t == inner[a..a + n];
    SliceOfSlice(s, lo, hi, a, a + n);
    assert t == s[lo + a..lo + a + n];
    SliceContained(s, lo + a, lo + a + n);
  }

  lemma SliceOfSlice(s: string, lo: nat, hi: nat, a: nat, b: nat)
    requires lo <= hi <= |s| && a <= b <= hi - lo
    ensures s[lo..hi][a..b] == s[lo + a..lo + b]
  {
    forall k | 0 <= k < b - a
      ensures s[lo..hi][a..b][k] == s[lo + a..lo + b][k]
    {
      assert s[lo..hi][a..b][k] == s[lo..hi][a + k] == s[lo + a + k];
    }
  }

  lemma SliceContained(s: string, lo: nat, hi: nat)
    requires lo <= hi <= |s|
    ensures Contains(s, s[lo..hi])
  {
    assert OccursAt(s, s[lo..hi], lo);
  }

  /** Wrapping a trimmed, star-free text in markers gives that text back. */
  lemma FirstBoldOfWrapped(t: string)
    requires t != [] && Trim(t) == t && '*' !in t
    ensures FirstBold(BoldMarker + t + BoldMarker) == Some(t)
  {
    var s := BoldMarker + t + BoldMarker;
    assert OccursAt(s, BoldMarker, 0);
    assert FindFrom(s, BoldMarker, 0) == Some(0);
    assert s[2..2 + |t|] == t;
    forall k | 2 <= k < 2 + |t|
      ensures !OccursAt(s, BoldMarker, k)
    {
      assert s[k] == t[k - 2];
      OccursStars(s, k);
    }
    assert s[|t| + 2..|t| + 4] == BoldMarker;
    assert OccursAt(s, BoldMarker, |t| + 2);
    assert FindFrom(s, BoldMarker, 2) == Some(|t| + 2);
  }

  lemma OccursStars(s: string, k: int)
    ensures OccursAt(s, BoldMarker, k) <==> 0 <= k && k + 1 < |s| && s[k] == '*' && s[k + 1] == '*'
  {
    if 0 <= k && k + 1 < |s| {
      assert s[k..k + 2] == [s[k], s[k + 1]];
    }
  }

  /**
   * `extract_first_bold` as the widget scans streamed text: a search for
   * the opening marker, then for the closing one; an unclosed span ends the
   * search. Markers are ASCII, so scanning characters finds the same spans
   * as scanning UTF-8 bytes.
   */
  method ExtractFirstBold(s: string) returns (r: Option<string>)
    ensures r == FirstBold(s)
  {
    var i := 0;
    while i + 1 < |s|
      invariant 0 <= i
      invariant forall k :: 0 <= k < i ==> !OccursAt(s, BoldMarker, k)
    {
      OccursStars(s, i);
      if s[i] == '*' && s[i + 1] == '*' {
        assert FindFrom(s, BoldMarker, 0) == Some(i);
        var start := i + 2;
        var j := start;
        while j + 1 < |s|
          invariant start <= j
          invariant forall k :: start <= k < j ==> !OccursAt(s, BoldMarker, k)
        {
          OccursStars(s, j);
          if s[j] == '*' && s[j + 1] == '*' {
            assert FindFrom(s, BoldMarker, start) == Some(j);
            var inner := s[start..j];
            var trimmed := Trim(inner);
            if trimmed != [] {
              return Some(trimmed);
            } else {
              return None;
            }
          }
          j := j + 1;
        }
        forall k | start <= k
          ensures !OccursAt(s, BoldMarker, k)
        {
          OccursStars(s, k);
        }
        return None;
      }
      i := i + 1;
    }
    forall k | 0 <= k
      ensures !OccursAt(s, BoldMarker, k)
    {
      OccursStars(s, k);
    }
    return None;
  }

  // ---------------------------------------------------------------------------
  // Skill mentions

  /** What the widget keeps of a skill here: its name, description and path. */
  datatype SkillMetadata = SkillMetadata(name: string, description: string, path: string)

  /** A skill is mentioned when `$name` occurs in the text. */
  predicate Mentioned(text: string, name: string) {
    Contains(text, "$" + name)
  }

  /** The mentioned skills in list order, skipping any whose name is in `seen` or was already taken. */
  function Mentions(text: string, skills: seq<SkillMetadata>, seen: set<string>): seq<SkillMetadata>
    decreases |skills|
  {
    if skills == [] then []
    else if skills[0].name !in seen && Mentioned(text, skills[0].name) then
      [skills[0]] + Mentions(text, skills[1..], seen + {skills[0].name})
    else Mentions(text, skills[1..], seen)
  }

  /** `skills[j]` is the first skill in the list with its name. */
  predicate FirstOfName(skills: seq<SkillMetadata>, j: int) {
    0 <= j < |skills| && forall j' :: 0 <= j' < j ==> skills[j'].name != skills[j].name
  }

  /** `m` is the first skill of its name in the list. */
  ghost predicate ListedFirst(skills: seq<SkillMetadata>, m: SkillMetadata) {
    exists j :: FirstOfName(skills, j) && skills[j] == m
  }

  ghost predicate SoundMentions(text: string, skills: seq<SkillMetadata>, seen: set<string>, r: seq<SkillMetadata>) {
    forall k :: 0 <= k < |r| ==>
      r[k].name !in seen && Mentioned(text, r[k].name) && ListedFirst(skills, r[k])
  }

  predicate DistinctNames(r: seq<SkillMetadata>) {
    forall p, q :: 0 <= p < q < |r| ==> r[p].name != r[q].name
  }

  ghost predicate CompleteMentions(text: string, skills: seq<SkillMetadata>, seen: set<string>, r: seq<SkillMetadata>) {
    forall sk :: sk in skills && sk.name !in seen && Mentioned(text, sk.name) ==>
      exists k :: 0 <= k < |r| && r[k].name == sk.name
  }

  /**
   * The mentions found are mentioned, not in `seen`, and each is the first
   * skill of its name in the list.
   */
  lemma {:induction false} MentionsSound(text: string, skills: seq<SkillMetadata>, seen: set<string>)
    ensures SoundMentions(text, skills, seen, Mentions(text, skills, seen))
    decreases |skills|
  {
    if skills != [] {
      var x := skills[0];
      var tail := skills[1..];
      var taken := x.name !in seen && Mentioned(text, x.name);
      var seen' := if taken then seen + {x.name} else seen;
      MentionsSound(text, tail, seen');
      var rt := Mentions(text, tail, seen');
      var r := Mentions(text, skills, seen);
      assert r == (if taken then [x] + rt else rt);
      forall k | 0 <= k < |rt|
        ensures ListedFirst(skills, rt[k])
      {
        assert rt[k].name !in seen' && Mentioned(text, rt[k].name);
        ListedFirstOfTail(skills, rt[k]);
      }
      if taken {
        assert FirstOfName(skills, 0);
        assert ListedFirst(skills, x);
        assert forall k :: 1 <= k < |r| ==> r[k] == rt[k - 1];
      }
    }
  }

  /** A skill first of its name in the tail is first in the list, unless the head shares its name. */
  lemma ListedFirstOfTail(skills: seq<SkillMetadata>, m: SkillMetadata)
    requires skills != [] && ListedFirst(skills[1..], m) && m.name != skills[0].name
    ensures ListedFirst(skills, m)
  {
    var j :| FirstOfName(skills[1..], j) && skills[1..][j] == m;
    assert FirstOfName(skills, j + 1) && skills[j + 1] == m;
  }

  /** No two mentions found share a name. */
  lemma {:induction false} MentionsDistinct(text: string, skills: seq<SkillMetadata>, seen: set<string>)
    ensures DistinctNames(Mentions(text, skills, seen))
    decreases |skills|
  {
    if skills != [] {
      var x := skills[0];
      var taken := x.name !in seen && Mentioned(text, x.name);
      var seen' := if taken then seen + {x.name} else seen;
      MentionsDistinct(text, skills[1..], seen');
      MentionsSound(text, skills[1..], seen');
      var rt := Mentions(text, skills[1..], seen');
      if taken {
        var r := [x] + rt;
        forall p, q | 0 <= p < q < |r|
          ensures r[p].name != r[q].name
        {
          if p == 0 {
            assert r[q] == rt[q - 1];
          } else {
            assert r[p] == rt[p - 1] && r[q] == rt[q - 1];
          }
        }
      }
    }
  }

  /** Every mentioned skill whose name is not in `seen` is found under its name. */
  lemma {:induction false} MentionsComplete(text: string, skills: seq<SkillMetadata>, seen: set<string>)
    ensures CompleteMentions(text, skills, seen, Mentions(text, skills, seen))
    decreases |skills|
  {
    if skills != [] {
      var x := skills[0];
      var tail := skills[1..];
      var taken := x.name !in seen && Mentioned(text, x.name);
      var seen' := if taken then seen + {x.name} else seen;
      MentionsComplete(text, tail, seen');
      var rt := Mentions(text, tail, seen');
      var r := Mentions(text, skills, seen);
      assert r == (if taken then [x] + rt else rt);
      forall sk | sk in skills && sk.name !in seen && Mentioned(text, sk.name)
        ensures exists k :: 0 <= k < |r| && r[k].name == sk.name
      {
        if sk.name == x.name {
          assert r[0].name == sk.name;
        } else {
          assert sk in tail;
          var k :| 0 <= k < |rt| && rt[k].name == sk.name;
          assert r[if taken then k + 1 else k] == rt[k];
        }
      }
    }
  }

  lemma MentionsStep(text: string, skills: seq<SkillMetadata>, i: nat, seen: set<string>)
    requires i < |skills|
    ensures Mentions(text, skills[i..], seen)
      == if skills[i].name !in seen && Mentioned(text, skills[i].name)
         then [skills[i]] + Mentions(text, skills[i + 1..], seen + {skills[i].name})
         else Mentions(text, skills[i + 1..], seen)
  {
    assert skills[i..][1..] == skills[i + 1..];
  }

  /** `find_skill_mentions`: one pass over the skills with a set of names already taken. */
  method FindSkillMentions(text: string, skills: seq<SkillMetadata>) returns (matches: seq<SkillMetadata>)
    ensures matches == Mentions(text, skills, {})
  {
    var seen: set<string> := {};
    matches := [];
    for i := 0 to |skills|
      invariant matches + Mentions(text, skills[i..], seen) == Mentions(text, skills, {})
    {
      var skill := skills[i];
      MentionsStep(text, skills, i, seen);
      if skill.name !in seen {
        var needle := "$" + skill.name;
        if Contains(text, needle) {
          seen := seen + {skill.name};
          assert matches + ([skill] + Mentions(text, skills[i + 1..], seen))
            == (matches + [skill]) + Mentions(text, skills[i + 1..], seen);
          matches := matches + [skill];
        }
      }
    }
    assert skills[|skills|..] == [];
  }

  // ---------------------------------------------------------------------------
  // Timeouts, the initial message and the automatic models

  /** `is_timeout_error`: "timed out" or "timeout" in any ASCII letter case. */
  function IsTimeoutError(message: string): bool {
    var lower := AsciiLowerStr(message);
    Contains(lower, "timed out") || Contains(lower, "timeout")
  }

  /** Lower-casing twice is lower-casing once. */
  lemma AsciiLowerStrIdempotent(s: string)
    ensures AsciiLowerStr(AsciiLowerStr(s)) == AsciiLowerStr(s)
  {
    var l := AsciiLowerStr(s);
    forall i | 0 <= i < |s|
      ensures AsciiLowerStr(l)[i] == l[i]
    {
      assert AsciiLower(AsciiLower(s[i])) == AsciiLower(s[i]);
    }
  }

  /** The check ignores letter case: a message and its lower-case form are judged alike. */
  lemma TimeoutIgnoresCase(message: string)
    ensures IsTimeoutError(AsciiLowerStr(message)) == IsTimeoutError(message)
  {
    AsciiLowerStrIdempotent(message);
  }

  /** A lower-case word survives lower-casing in place. */
  lemma LowerKeepsLowerWord(s: string, w: string, i: int)
    requires OccursAt(s, w, i)
    requires forall k :: 0 <= k < |w| ==> !IsAsciiUpper(w[k])
    ensures OccursAt(AsciiLowerStr(s), w, i)
  {
    var l := AsciiLowerStr(s);
    forall k | 0 <= k < |w|
      ensures l[i + k] == w[k]
    {
      assert s[i + k] == s[i..i + |w|][k];
    }
    assert l[i..i + |w|] == w;
  }

  /** Any message that says "timed out" or "timeout" is a timeout error. */
  lemma TimeoutWordsDetected(message: string)
    requires Contains(message, "timed out") || Contains(message, "timeout")
    ensures IsTimeoutError(message)
  {
    if Contains(message, "timed out") {
      var i :| 0 <= i <= |message| && OccursAt(message, "timed out", i);
      LowerKeepsLowerWord(message, "timed out", i);
    } else {
      var i :| 0 <= i <= |message| && OccursAt(message, "timeout", i);
      LowerKeepsLowerWord(message, "timeout", i);
    }
  }

  datatype ImageAttachment = ImageAttachment(path: string, placeholder: string)
  datatype UserMessage = UserMessage(text: string, imageAttachments: seq<ImageAttachment>)

  /** `create_initial_user_message`: no message exactly when there is neither text nor an image. */
  function CreateInitialUserMessage(text: string, images: seq<ImageAttachment>): (r: Option<UserMessage>)
    ensures r.None? <==> text == [] && images == []
    ensures r.Some? ==> r.value.text == text && r.value.imageAttachments == images
  {
    if text == [] && images == [] then None else Some(UserMessage(text, images))
  }

  datatype ModelPreset = ModelPreset(model: string, displayName: string, description: string)

  const AutoModelPrefix: string := "codex-auto-"

  predicate IsAutoModel(model: string) {
    StartsWith(model, AutoModelPrefix)
  }

  /** `auto_model_order`: fast, balanced, thorough, then every other automatic model. */
  function AutoModelOrder(model: string): (r: nat)
    ensures r <= 3
  {
    if model == "codex-auto-fast" then 0
    else if model == "codex-auto-balanced" then 1
    else if model == "codex-auto-thorough" then 2
    else 3
  }

  function PresetOrder(p: ModelPreset): nat {
    AutoModelOrder(p.model)
  }

  /** The presets of order `k`, in their original order. */
  function WithOrder(ps: seq<ModelPreset>, k: nat): (r: seq<ModelPreset>)
    ensures forall x :: x in r ==> x in ps && PresetOrder(x) == k
  {
    if ps == [] then []
    else if PresetOrder(ps[0]) == k then [ps[0]] + WithOrder(ps[1..], k)
    else WithOrder(ps[1..], k)
  }

  /** The automatic presets, in their original order. */
  function AutoOnly(ps: seq<ModelPreset>): (r: seq<ModelPreset>)
    ensures forall x :: x in r ==> x in ps && IsAutoModel(x.model)
  {
    if ps == [] then []
    else if IsAutoModel(ps[0].model) then [ps[0]] + AutoOnly(ps[1..])
    else AutoOnly(ps[1..])
  }

  /** The key-sorted list a stable sort by `auto_model_order` produces. */
  function SortByAutoOrder(ps: seq<ModelPreset>): seq<ModelPreset> {
    WithOrder(ps, 0) + WithOrder(ps, 1) + WithOrder(ps, 2) + WithOrder(ps, 3)
  }

  /** The automatic presets of the model popup, in the order it lists them. */
  function AutoPresets(presets: seq<ModelPreset>): seq<ModelPreset> {
    SortByAutoOrder(AutoOnly(presets))
  }

  predicate SortedByOrder(s: seq<ModelPreset>) {
    forall p, q :: 0 <= p < q < |s| ==> PresetOrder(s[p]) <= PresetOrder(s[q])
  }

  lemma SortedConcat(a: seq<ModelPreset>, b: seq<ModelPreset>)
    requires SortedByOrder(a) && SortedByOrder(b)
    requires forall x, y :: x in a && y in b ==> PresetOrder(x) <= PresetOrder(y)
    ensures SortedByOrder(a + b)
  {
    var c := a + b;
    forall p, q | 0 <= p < q < |c|
      ensures PresetOrder(c[p]) <= PresetOrder(c[q])
    {
      if p < |a| && q >= |a| {
        assert c[p] in a && c[q] in b;
      }
    }
  }

  lemma SingleOrderSorted(ps: seq<ModelPreset>, k: nat)
    ensures SortedByOrder(WithOrder(ps, k))
  {
    var w := WithOrder(ps, k);
    forall p, q | 0 <= p < q < |w|
      ensures PresetOrder(w[p]) <= PresetOrder(w[q])
    {
      assert w[p] in w && w[q] in w;
    }
  }

  lemma {:induction false} WithOrderPartition(ps: seq<ModelPreset>)
    ensures multiset(ps)
      == multiset(WithOrder(ps, 0)) + multiset(WithOrder(ps, 1)) + multiset(WithOrder(ps, 2)) + multiset(WithOrder(ps, 3))
  {
    if ps != [] {
      WithOrderPartition(ps[1..]);
      assert ps == [ps[0]] + ps[1..];
    }
  }

  lemma {:induction false} WithOrderAppend(a: seq<ModelPreset>, b: seq<ModelPreset>, k: nat)
    ensures WithOrder(a + b, k) == WithOrder(a, k) + WithOrder(b, k)
  {
    if a == [] {
      assert a + b == b;
    } else {
      assert (a + b)[0] == a[0] && (a + b)[1..] == a[1..] + b;
      WithOrderAppend(a[1..], b, k);
    }
  }

  lemma {:induction false} WithOrderOf(ps: seq<ModelPreset>, j: nat, k: nat)
    ensures WithOrder(WithOrder(ps, j), k) == if j == k then WithOrder(ps, j) else []
  {
    if ps != [] {
      WithOrderOf(ps[1..], j, k);
    }
  }

  /** The popup lists its automatic models in `auto_model_order`. */
  lemma AutoPresetsSorted(presets: seq<ModelPreset>)
    ensures SortedByOrder(AutoPresets(presets))
  {
    var ps := AutoOnly(presets);
    var w0, w1, w2, w3 := WithOrder(ps, 0), WithOrder(ps, 1), WithOrder(ps, 2), WithOrder(ps, 3);
    SingleOrderSorted(ps, 0);
    SingleOrderSorted(ps, 1);
    SingleOrderSorted(ps, 2);
    SingleOrderSorted(ps, 3);
    SortedConcat(w0, w1);
    SortedConcat(w0 + w1, w2);
    SortedConcat(w0 + w1 + w2, w3);
  }

  /** The popup lists exactly the automatic presets, each as often as it was given. */
  lemma AutoPresetsPermutes(presets: seq<ModelPreset>)
    ensures multiset(AutoPresets(presets)) == multiset(AutoOnly(presets))
    ensures forall x :: x in AutoPresets(presets) ==> IsAutoModel(x.model)
  {
    var ps := AutoOnly(presets);
    var w0, w1, w2, w3 := WithOrder(ps, 0), WithOrder(ps, 1), WithOrder(ps, 2), WithOrder(ps, 3);
    assert AutoPresets(presets) == w0 + w1 + w2 + w3;
    WithOrderPartition(ps);
    forall x | x in AutoPresets(presets)
      ensures IsAutoModel(x.model)
    {
      assert x in w0 || x in w1 || x in w2 || x in w3;
      assert x in ps;
    }
  }

  /** The sort is stable: presets of equal order keep their original order. */
  lemma AutoPresetsStable(presets: seq<ModelPreset>, k: nat)
    ensures WithOrder(AutoPresets(presets), k) == WithOrder(AutoOnly(presets), k)
  {
    SortStable(AutoOnly(presets), k);
  }

  lemma SortStable(ps: seq<ModelPreset>, k: nat)
    ensures WithOrder(SortByAutoOrder(ps), k) == WithOrder(ps, k)
  {
    var w0, w1, w2, w3 := WithOrder(ps, 0), WithOrder(ps, 1), WithOrder(ps, 2), WithOrder(ps, 3);
    WithOrderAppend(w0 + w1 + w2, w3, k);
    WithOrderAppend(w0 + w1, w2, k);
    WithOrderAppend(w0, w1, k);
    WithOrderOf(ps, 0, k);
    WithOrderOf(ps, 1, k);
    WithOrderOf(ps, 2, k);
    WithOrderOf(ps, 3, k);
    if k > 3 {
      WithOrderEmpty(ps, k);
    }
    PickOrder(WithOrder(w0, k), WithOrder(w1, k), WithOrder(w2, k), WithOrder(w3, k), k, WithOrder(ps, k));
  }

  /** Four groups of which only the `k`-th may be non-empty concatenate to that group. */
  lemma PickOrder(v0: seq<ModelPreset>, v1: seq<ModelPreset>, v2: seq<ModelPreset>, v3: seq<ModelPreset>, k: nat, w: seq<ModelPreset>)
    requires v0 == (if k == 0 then w else [])
    requires v1 == (if k == 1 then w else [])
    requires v2 == (if k == 2 then w else [])
    requires v3 == (if k == 3 then w else [])
    requires k > 3 ==> w == []
    ensures v0 + v1 + v2 + v3 == w
  {
    if k == 0 {
      assert v0 + v1 + v2 + v3 == w + [] + [] + [];
    } else if k == 1 {
      assert v0 + v1 + v2 + v3 == [] + w + [] + [];
    } else if k == 2 {
      assert v0 + v1 + v2 + v3 == [] + [] + w + [];
    } else if k == 3 {
      assert v0 + v1 + v2 + v3 == [] + [] + [] + w;
    }
  }

  lemma {:induction false} WithOrderEmpty(ps: seq<ModelPreset>, k: nat)
    requires k > 3
    ensures WithOrder(ps, k) == []
  {
    if ps != [] {
      WithOrderEmpty(ps[1..], k);
    }
  }

  // ---------------------------------------------------------------------------
  // The plan-rework prefix

  /**
   * The widget state behind a plan rework: a prompt waiting to be put in
   * front of the next submission, and whether the plan options open once
   * the turn it starts completes.
   */
  class SddReworkState {
    var pendingPlanReworkPrompt: Option<string>
    var openPlanOptionsAfterTask: bool

    constructor()
      ensures pendingPlanReworkPrompt == None && !openPlanOptionsAfterTask
    {
      pendingPlanReworkPrompt := None;
      openPlanOptionsAfterTask := false;
    }

    /** A rework was requested: its prompt waits for the next submission. */
    method RequestPlanRework(prompt: string)
      modifies this
      ensures pendingPlanReworkPrompt == Some(prompt)
      ensures openPlanOptionsAfterTask == old(openPlanOptionsAfterTask)
    {
      pendingPlanReworkPrompt := Some(prompt);
    }

    /** Starting or leaving a workflow drops a pending rework. */
    method ClearPlanRework()
      modifies this
      ensures pendingPlanReworkPrompt == None && !openPlanOptionsAfterTask
    {
      pendingPlanReworkPrompt := None;
      openPlanOptionsAfterTask := false;
    }

    /**
     * `apply_sdd_plan_rework_prefix`: the text to submit and the text to
     * show. A pending prompt is taken (used once), put in front of the
     * submitted text, and arms the plan options; the shown text is the
     * user's own either way.
     */
    method ApplySddPlanReworkPrefix(text: string) returns (submitted: string, display: string)
      modifies this
      ensures display == text
      ensures pendingPlanReworkPrompt == None
      ensures old(pendingPlanReworkPrompt).Some? ==>
        submitted == old(pendingPlanReworkPrompt).value + text && openPlanOptionsAfterTask
      ensures old(pendingPlanReworkPrompt).None? ==>
        submitted == text && openPlanOptionsAfterTask == old(openPlanOptionsAfterTask)
    {
      var prefix := pendingPlanReworkPrompt;
      pendingPlanReworkPrompt := None;
      if prefix.Some? {
        openPlanOptionsAfterTask := true;
        var combined := prefix.value;
        combined := combined + text;
        return combined, text;
      } else {
        return text, text;
      }
    }

    /** On task completion: whether to open the plan options, which is then disarmed. */
    method TakeOpenPlanOptions() returns (open: bool)
      modifies this
      ensures open == old(openPlanOptionsAfterTask) && !openPlanOptionsAfterTask
      ensures pendingPlanReworkPrompt == old(pendingPlanReworkPrompt)
    {
      open := openPlanOptionsAfterTask;
      openPlanOptionsAfterTask := false;
    }
  }
}
