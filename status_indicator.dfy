/**
 * The status row shown while the agent works: the compact elapsed-time
 * rendering, the pausable timer, the details and inline-message updates,
 * and the truncation of wrapped details to three lines. Instants and
 * durations are whole nanoseconds.
 */
module StatusIndicator {
  import opened Wrappers
  import opened Text

  const NanosPerSecond: nat := 1_000_000_000

  /** Details never take more than this many wrapped lines. */
  const DetailsMaxLines: nat := 3

  /** The indent in front of the first details line, and its display width. */
  const DetailsPrefix: string := "  └ "
  const DetailsPrefixWidth: nat := 4

  const Ellipsis: char := '…'

  // ---------------------------------------------------------------------------
  // Elapsed time

  /** The unit suffixes of the interface language. */
  datatype Suffixes = Suffixes(seconds: string, minutes: string, hours: string)

  const EnglishSuffixes: Suffixes := Suffixes("s", "m", "h")

  /**
   * `fmt_elapsed_compact`: seconds alone under a minute, minutes and
   * two-digit seconds under an hour, otherwise hours, two-digit minutes and
   * two-digit seconds.
   */
  function FmtElapsedCompact(suffixes: Suffixes, elapsedSecs: nat): (r: string)
    ensures elapsedSecs < 60 ==> r == NatToString(elapsedSecs) + suffixes.seconds
    ensures 60 <= elapsedSecs < 3600 ==>
      r == NatToString(elapsedSecs / 60) + suffixes.minutes + " " + Pad2(elapsedSecs % 60) + suffixes.seconds
    ensures 3600 <= elapsedSecs ==>
      r == NatToString(elapsedSecs / 3600) + suffixes.hours + " " + Pad2(elapsedSecs % 3600 / 60)
           + suffixes.minutes + " " + Pad2(elapsedSecs % 60) + suffixes.seconds
  {
    if elapsedSecs < 60 then NatToString(elapsedSecs) + suffixes.seconds
    else if elapsedSecs < 3600 then
      var minutes := elapsedSecs / 60;
      var seconds := elapsedSecs % 60;
      NatToString(minutes) + suffixes.minutes + " " + Pad2(seconds) + suffixes.seconds
    else
      var hours := elapsedSecs / 3600;
      var minutes := (elapsedSecs % 3600) / 60;
      var seconds := elapsedSecs % 60;
      NatToString(hours) + suffixes.hours + " " + Pad2(minutes) + suffixes.minutes + " " + Pad2(seconds)
      + suffixes.seconds
  }

  /**
   * Reads an English compact duration back into seconds: digits accumulate
   * into `acc`, and a unit letter adds `acc` times its weight to `total`.
   */
  function ReadElapsed(s: string, acc: nat, total: nat): nat {
    if s == [] then total
    else if IsAsciiDigit(s[0]) then ReadElapsed(s[1..], acc * 10 + (s[0] as int - '0' as int), total)
    else if s[0] == 's' then ReadElapsed(s[1..], 0, total + acc)
    else if s[0] == 'm' then ReadElapsed(s[1..], 0, total + acc * 60)
    else if s[0] == 'h' then ReadElapsed(s[1..], 0, total + acc * 3600)
    else ReadElapsed(s[1..], acc, total)
  }

  function Pow10(n: nat): nat {
    if n == 0 then 1 else 10 * Pow10(n - 1)
  }

  /** Reading a run of digits shifts the accumulator by its length and adds its value. */
  lemma ReadDigit(c: char, rest: string, acc: nat, total: nat)
    requires IsAsciiDigit(c)
    ensures ReadElapsed([c] + rest, acc, total) == ReadElapsed(rest, acc * 10 + (c as int - '0' as int), total)
  {
    assert ([c] + rest)[0] == c && ([c] + rest)[1..] == rest;
  }

  lemma ShiftDigit(acc: nat, p: nat, value: nat, v: nat)
    ensures (acc * p + value) * 10 + v == acc * (10 * p) + (10 * value + v)
  {
  }

  lemma {:induction false} ReadDigits(d: string, rest: string, acc: nat, total: nat)
    requires forall i :: 0 <= i < |d| ==> IsAsciiDigit(d[i])
    ensures ReadElapsed(d + rest, acc, total) == ReadElapsed(rest, acc * Pow10(|d|) + DigitsValue(d), total)
    decreases |d|
  {
    if d != [] {
      var front := d[..|d| - 1];
      var c := d[|d| - 1];
      assert IsAsciiDigit(c);
      var v := c as int - '0' as int;
      assert d + rest == front + ([c] + rest);
      ReadDigits(front, [c] + rest, acc, total);
      ReadDigit(c, rest, acc * Pow10(|front|) + DigitsValue(front), total);
      ShiftDigit(acc, Pow10(|front|), DigitsValue(front), v);
      assert DigitsValue(d) == 10 * DigitsValue(front) + v;
      assert Pow10(|d|) == 10 * Pow10(|front|);
    } else {
      assert d + rest == rest;
    }
  }

  lemma ReadNumber(n: nat, rest: string, total: nat)
    ensures ReadElapsed(NatToString(n) + rest, 0, total) == ReadElapsed(rest, n, total)
  {
    ReadDigits(NatToString(n), rest, 0, total);
    NatToStringRoundTrip(n);
  }

  lemma ReadPadded(n: nat, rest: string, total: nat)
    requires n < 100
    ensures ReadElapsed(Pad2(n) + rest, 0, total) == ReadElapsed(rest, n, total)
  {
    ReadDigits(Pad2(n), rest, 0, total);
  }

  /** The weight, in seconds, of a unit letter. */
  function UnitWeight(u: char): nat {
    if u == 's' then 1 else if u == 'm' then 60 else 3600
  }

  lemma ReadUnit(u: char, rest: string, acc: nat, total: nat)
    requires u == 's' || u == 'm' || u == 'h'
    ensures ReadElapsed([u] + rest, acc, total) == ReadElapsed(rest, 0, total + acc * UnitWeight(u))
  {
    assert ([u] + rest)[0] == u && ([u] + rest)[1..] == rest;
  }

  lemma ReadSpace(rest: string, total: nat)
    ensures ReadElapsed([' '] + rest, 0, total) == ReadElapsed(rest, 0, total)
  {
    assert ([' '] + rest)[0] == ' ' && ([' '] + rest)[1..] == rest;
  }

  /** Reads `<n>u` followed by `rest`, for a unit letter `u`. */
  lemma ReadQuantity(n: nat, u: char, rest: string, total: nat)
    requires u == 's' || u == 'm' || u == 'h'
    ensures ReadElapsed(NatToString(n) + ([u] + rest), 0, total) == ReadElapsed(rest, 0, total + n * UnitWeight(u))
  {
    ReadNumber(n, [u] + rest, total);
    ReadUnit(u, rest, n, total);
  }

  /** Reads ` <nn>u` followed by `rest`, for a two-digit field. */
  lemma ReadPaddedQuantity(n: nat, u: char, rest: string, total: nat)
    requires n < 100 && (u == 's' || u == 'm' || u == 'h')
    ensures ReadElapsed([' '] + (Pad2(n) + ([u] + rest)), 0, total) == ReadElapsed(rest, 0, total + n * UnitWeight(u))
  {
    ReadSpace(Pad2(n) + ([u] + rest), total);
    ReadPadded(n, [u] + rest, total);
    ReadUnit(u, rest, n, total);
  }

  lemma RoundTripSeconds(elapsedSecs: nat)
    requires elapsedSecs < 60
    ensures ReadElapsed(FmtElapsedCompact(EnglishSuffixes, elapsedSecs), 0, 0) == elapsedSecs
  {
    assert FmtElapsedCompact(EnglishSuffixes, elapsedSecs) == NatToString(elapsedSecs) + (['s'] + []);
    ReadQuantity(elapsedSecs, 's', [], 0);
  }

  lemma RoundTripMinutes(elapsedSecs: nat)
    requires 60 <= elapsedSecs < 3600
    ensures ReadElapsed(FmtElapsedCompact(EnglishSuffixes, elapsedSecs), 0, 0) == elapsedSecs
  {
    var min := elapsedSecs / 60;
    var sec := elapsedSecs % 60;
    var tail := [' '] + (Pad2(sec) + (['s'] + []));
    assert FmtElapsedCompact(EnglishSuffixes, elapsedSecs) == NatToString(min) + (['m'] + tail);
    ReadQuantity(min, 'm', tail, 0);
    ReadPaddedQuantity(sec, 's', [], min * 60);
  }

  /** The remainder is the unique one: a value written as `q * d + r` with `r < d` leaves `r`. */
  lemma ModOfSum(x: nat, q: nat, r: nat, d: nat)
    requires 0 < d && r < d && x == q * d + r
    ensures x % d == r && x / d == q
  {
    var q2, r2 := x / d, x % d;
    assert x == q2 * d + r2;
    if q2 > q {
      MulGap(q, q2, d);
      assert false;
    } else if q2 < q {
      MulGap(q2, q, d);
      assert false;
    }
  }

  /** A larger multiple of `d` is at least `d` larger. */
  lemma {:induction false} MulGap(a: nat, b: nat, d: nat)
    requires a < b
    ensures a * d + d <= b * d
  {
    assert b * d == (b - 1) * d + d;
    if a < b - 1 {
      MulGap(a, b - 1, d);
    }
  }

  lemma HoursSplit(e: nat)
    ensures e / 3600 * 3600 + e % 3600 / 60 * 60 + e % 60 == e
    ensures e % 3600 / 60 < 60
  {
    var h, r := e / 3600, e % 3600;
    var m, s := r / 60, r % 60;
    assert e == h * 3600 + r;
    assert r == m * 60 + s;
    assert e == (h * 60 + m) * 60 + s;
    ModOfSum(e, h * 60 + m, s, 60);
  }

  lemma RoundTripHours(elapsedSecs: nat)
    requires 3600 <= elapsedSecs
    ensures ReadElapsed(FmtElapsedCompact(EnglishSuffixes, elapsedSecs), 0, 0) == elapsedSecs
  {
    var hr := elapsedSecs / 3600;
    var min := elapsedSecs % 3600 / 60;
    var sec := elapsedSecs % 60;
    var tail := [' '] + (Pad2(sec) + (['s'] + []));
    var middle := [' '] + (Pad2(min) + (['m'] + tail));
    assert FmtElapsedCompact(EnglishSuffixes, elapsedSecs) == NatToString(hr) + (['h'] + middle);
    HoursSplit(elapsedSecs);
    ReadQuantity(hr, 'h', middle, 0);
    ReadPaddedQuantity(min, 'm', tail, hr * 3600);
    ReadPaddedQuantity(sec, 's', [], hr * 3600 + min * 60);
  }

  /** The English rendering loses nothing: reading it back gives the seconds rendered. */
  lemma FmtElapsedRoundTrip(elapsedSecs: nat)
    ensures ReadElapsed(FmtElapsedCompact(EnglishSuffixes, elapsedSecs), 0, 0) == elapsedSecs
  {
    if elapsedSecs < 60 {
      RoundTripSeconds(elapsedSecs);
    } else if elapsedSecs < 3600 {
      RoundTripMinutes(elapsedSecs);
    } else {
      RoundTripHours(elapsedSecs);
    }
  }

  /** Distinct durations render differently. */
  lemma FmtElapsedInjective(a: nat, b: nat)
    requires FmtElapsedCompact(EnglishSuffixes, a) == FmtElapsedCompact(EnglishSuffixes, b)
    ensures a == b
  {
    FmtElapsedRoundTrip(a);
    FmtElapsedRoundTrip(b);
  }

  /** `Instant::saturating_duration_since`: the time from `earlier` to `now`, or zero if `now` is earlier. */
  function SaturatingSince(now: nat, earlier: nat): (r: nat)
    ensures now >= earlier ==> r + earlier == now
    ensures now < earlier ==> r == 0
  {
    if now >= earlier then now - earlier else 0
  }

  /** The elapsed running time at `now`: the banked time, plus the time since the last resume unless paused. */
  function ElapsedAt(banked: nat, lastResumeAt: nat, isPaused: bool, now: nat): (r: nat)
    ensures r >= banked
    ensures isPaused ==> r == banked
  {
    if isPaused then banked else banked + SaturatingSince(now, lastResumeAt)
  }

  /** The elapsed time never goes backwards as the clock advances. */
  lemma ElapsedMonotone(banked: nat, lastResumeAt: nat, isPaused: bool, t1: nat, t2: nat)
    requires t1 <= t2
    ensures ElapsedAt(banked, lastResumeAt, isPaused, t1) <= ElapsedAt(banked, lastResumeAt, isPaused, t2)
  {
  }

  // ---------------------------------------------------------------------------
  // Details and inline message

  /** The first character upper-cased (ASCII letters only), the rest as is. */
  function CapitalizeFirst(s: string): (r: string)
    ensures |r| == |s|
    ensures s != [] ==> r[0] == AsciiUpper(s[0]) && r[1..] == s[1..]
  {
    if s == [] then [] else [AsciiUpper(s[0])] + s[1..]
  }

  /**
   * `update_details`: empty text clears the details; anything else loses
   * its leading whitespace and gets a capital first letter, and the rest is
   * kept as it was. Text made only of whitespace therefore becomes empty
   * details rather than none.
   */
  function NormalizeDetails(details: Option<string>): (r: Option<string>)
    ensures r.None? <==> details.None? || details.value == []
    ensures r.Some? ==> |r.value| <= |details.value|
    ensures r.Some? ==> (r.value == [] <==> IsBlank(details.value))
    ensures r.Some? && r.value != [] ==> !IsWhitespace(r.value[0])
    ensures r.Some? ==>
      var cut := |details.value| - |r.value|;
      && IsBlank(details.value[..cut])
      && (r.value != [] ==>
            r.value[0] == AsciiUpper(details.value[cut]) && r.value[1..] == details.value[cut + 1..])
  {
    match details
    case Some(d) =>
      if d == [] then None
      else
        TrimStartSuffix(d);
        Some(CapitalizeFirst(TrimStart(d)))
    case None => None
  }

  /** `update_inline_message`: the trimmed text, or nothing when it is blank. */
  function NormalizeInlineMessage(message: Option<string>): (r: Option<string>)
    ensures r.None? <==> message.None? || IsBlank(message.value)
    ensures r.Some? ==> r.value == Trim(message.value) && r.value != []
  {
    match message
    case Some(m) => if Trim(m) == [] then None else Some(Trim(m))
    case None => None
  }

  /** Normalising an inline message twice is the same as once. */
  lemma InlineMessageIdempotent(message: Option<string>)
    ensures NormalizeInlineMessage(NormalizeInlineMessage(message)) == NormalizeInlineMessage(message)
  {
    if message.Some? && Trim(message.value) != [] {
      TrimIdempotent(message.value);
    }
  }

  // ---------------------------------------------------------------------------
  // Details truncation

  /** A wrapped line: its styled spans, as text. */
  type Line = seq<string>

  /** `chars().take(n)`: at most the first `n` characters. */
  function Take(s: string, n: nat): (r: string)
    ensures |r| <= n && |r| <= |s| && r == s[..|r|]
    ensures |s| <= n ==> r == s
  {
    if |s| <= n then s else s[..n]
  }

  /**
   * The wrapped details cut to three lines when longer: the last span of
   * the third line keeps as many characters as fit beside the prefix, minus
   * one, and gains an ellipsis.
   */
  function TruncateDetails(wrapped: seq<Line>, width: nat): (r: seq<Line>)
    ensures |wrapped| <= DetailsMaxLines ==> r == wrapped
    ensures |wrapped| > DetailsMaxLines ==> |r| == DetailsMaxLines && r[..DetailsMaxLines - 1] == wrapped[..DetailsMaxLines - 1]
  {
    if |wrapped| <= DetailsMaxLines then wrapped
    else
      var kept := wrapped[..DetailsMaxLines];
      var last := kept[DetailsMaxLines - 1];
      if last == [] then kept
      else
        var contentWidth := if width > DetailsPrefixWidth then width - DetailsPrefixWidth else 1;
        var maxBaseLen := contentWidth - 1;
        var span := last[|last| - 1];
        kept[DetailsMaxLines - 1 := last[|last| - 1 := Take(span, maxBaseLen) + [Ellipsis]]]
  }

  /** A truncated last line ends in an ellipsis that still fits beside the prefix. */
  lemma TruncatedLineEndsInEllipsis(wrapped: seq<Line>, width: nat)
    requires |wrapped| > DetailsMaxLines && wrapped[DetailsMaxLines - 1] != []
    ensures var r := TruncateDetails(wrapped, width);
      var last := r[DetailsMaxLines - 1];
      |last| == |wrapped[DetailsMaxLines - 1]| && last != [] && last[|last| - 1] != []
      && last[|last| - 1][|last[|last| - 1]| - 1] == Ellipsis
      && |last[|last| - 1]| <= (if width > DetailsPrefixWidth then width - DetailsPrefixWidth else 1)
      && last[..|last| - 1] == wrapped[DetailsMaxLines - 1][..|last| - 1]
  {
  }

  /** `wrapped_details_lines`: nothing without details or at width zero, else the truncated wrapping. */
  function DetailsLines(details: Option<string>, wrapped: seq<Line>, width: nat): (r: seq<Line>)
    ensures |r| <= DetailsMaxLines || (details.Some? && width > 0 && r == wrapped && |wrapped| <= DetailsMaxLines)
    ensures details.None? || width == 0 ==> r == []
  {
    if details.None? || width == 0 then [] else TruncateDetails(wrapped, width)
  }

  // ---------------------------------------------------------------------------
  // The widget

  class StatusIndicatorWidget {
    var header: string
    var details: Option<string>
    var inlineMessage: Option<string>
    var showInterruptHint: bool
    /** Running time banked before the last pause. */
    var elapsedRunning: nat
    var lastResumeAt: nat
    var isPaused: bool

    function ElapsedDurationAt(now: nat): nat
      reads this
    {
      ElapsedAt(elapsedRunning, lastResumeAt, isPaused, now)
    }

    function ElapsedSecondsAt(now: nat): nat
      reads this
    {
      ElapsedDurationAt(now) / NanosPerSecond
    }

    constructor(workingHeader: string, now: nat)
      ensures header == workingHeader && details == None && inlineMessage == None && showInterruptHint
      ensures elapsedRunning == 0 && lastResumeAt == now && !isPaused
      ensures forall t :: t >= now ==> ElapsedDurationAt(t) == t - now
    {
      header := workingHeader;
      details := None;
      inlineMessage := None;
      showInterruptHint := true;
      elapsedRunning := 0;
      lastResumeAt := now;
      isPaused := false;
    }

    method UpdateHeader(header: string)
      modifies this
      ensures this.header == header
      ensures details == old(details) && inlineMessage == old(inlineMessage)
      ensures showInterruptHint == old(showInterruptHint)
      ensures elapsedRunning == old(elapsedRunning) && lastResumeAt == old(lastResumeAt) && isPaused == old(isPaused)
    {
      this.header := header;
    }

    method UpdateDetails(details: Option<string>)
      modifies this
      ensures this.details == NormalizeDetails(details)
      ensures header == old(header) && inlineMessage == old(inlineMessage)
      ensures showInterruptHint == old(showInterruptHint)
      ensures elapsedRunning == old(elapsedRunning) && lastResumeAt == old(lastResumeAt) && isPaused == old(isPaused)
    {
      this.details := NormalizeDetails(details);
    }

    method UpdateInlineMessage(message: Option<string>)
      modifies this
      ensures inlineMessage == NormalizeInlineMessage(message)
      ensures header == old(header) && details == old(details)
      ensures showInterruptHint == old(showInterruptHint)
      ensures elapsedRunning == old(elapsedRunning) && lastResumeAt == old(lastResumeAt) && isPaused == old(isPaused)
    {
      inlineMessage := NormalizeInlineMessage(message);
    }

    method SetInterruptHintVisible(visible: bool)
      modifies this
      ensures showInterruptHint == visible
      ensures header == old(header) && details == old(details) && inlineMessage == old(inlineMessage)
      ensures elapsedRunning == old(elapsedRunning) && lastResumeAt == old(lastResumeAt) && isPaused == old(isPaused)
    {
      showInterruptHint := visible;
    }

    /** Banks the running time and freezes the clock; pausing while paused does nothing. */
    method PauseTimerAt(now: nat)
      modifies this
      ensures old(isPaused) ==> unchanged(this)
      ensures isPaused
      ensures forall t :: ElapsedDurationAt(t) == old(ElapsedDurationAt(now))
      ensures header == old(header) && details == old(details) && inlineMessage == old(inlineMessage)
      ensures showInterruptHint == old(showInterruptHint) && lastResumeAt == old(lastResumeAt)
    {
      if isPaused {
        return;
      }
      elapsedRunning := elapsedRunning + SaturatingSince(now, lastResumeAt);
      isPaused := true;
    }

    /** Restarts the clock from `now`; resuming while running does nothing. */
    method ResumeTimerAt(now: nat)
      modifies this
      ensures !old(isPaused) ==> unchanged(this)
      ensures !isPaused
      ensures old(isPaused) ==> forall t :: t >= now ==> ElapsedDurationAt(t) == old(ElapsedDurationAt(now)) + (t - now)
      ensures header == old(header) && details == old(details) && inlineMessage == old(inlineMessage)
      ensures showInterruptHint == old(showInterruptHint) && elapsedRunning == old(elapsedRunning)
    {
      if !isPaused {
        return;
      }
      lastResumeAt := now;
      isPaused := false;
    }
  }
}
