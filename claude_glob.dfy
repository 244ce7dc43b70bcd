/**
 * The Claude-style Glob tool: check the pattern, anchor a relative pattern
 * at the search root, and turn the paths the glob walk yields into a
 * sorted, duplicate-free list of '/'-separated paths, relative to the root
 * where they lie under it. Paths are Unix paths, held as their components.
 */
module ClaudeGlob {
  import opened Wrappers
  import opened Text
  import opened Order

  /** A path: rooted at '/' or relative, and its normal components in order. */
  datatype FsPath = FsPath(absolute: bool, components: seq<string>)

  /** A normal component: non-empty, with no separator in it. */
  predicate ValidComponent(c: string) {
    c != [] && '/' !in c
  }

  predicate ValidComponents(cs: seq<string>) {
    forall i :: 0 <= i < |cs| ==> ValidComponent(cs[i])
  }

  /** `to_string_lossy`: the components joined by '/', after a leading '/' when rooted. */
  function PathText(p: FsPath): string {
    (if p.absolute then "/" else "") + Join(p.components, "/")
  }

  const PatternRequired: string := "pattern must not be empty / pattern 不能为空"

  /** The pattern check in `handle`: the trimmed pattern, which must not be empty. */
  function CheckPattern(pattern: string): (r: Result<string, string>)
    ensures r.Ok? <==> !IsBlank(pattern)
    ensures r.Ok? ==> r.value == Trim(pattern)
    ensures r.Err? ==> r.error == PatternRequired
  {
    var trimmed := Trim(pattern);
    if trimmed == [] then Err(PatternRequired) else Ok(trimmed)
  }

  /** A pattern that passed the check passes it again unchanged. */
  lemma CheckPatternIdempotent(pattern: string)
    requires CheckPattern(pattern).Ok?
    ensures CheckPattern(CheckPattern(pattern).value) == CheckPattern(pattern)
  {
    TrimIdempotent(pattern);
  }

  /** `Path::join`: a rooted `rel` replaces `base`; otherwise one '/' goes between them when needed. */
  function JoinPath(base: string, rel: string): (r: string)
    ensures EndsWith(r, rel)
  {
    if StartsWith(rel, "/") then rel
    else if base == [] || EndsWith(base, "/") then base + rel
    else base + "/" + rel
  }

  /** `build_search_pattern`: an absolute pattern as given, a relative one under the root. */
  function BuildSearchPattern(pattern: string, base: FsPath): (r: string)
    ensures StartsWith(pattern, "/") ==> r == pattern
    ensures !StartsWith(pattern, "/") ==> StartsWith(r, PathText(base)) && EndsWith(r, pattern)
  {
    if StartsWith(pattern, "/") then pattern else JoinPath(PathText(base), pattern)
  }

  /** The joined parts end with the last part. */
  lemma {:induction false} JoinEndsWithLast(parts: seq<string>)
    requires parts != []
    ensures EndsWith(Join(parts, "/"), parts[|parts| - 1])
  {
    if |parts| > 1 {
      var rest := parts[1..];
      JoinEndsWithLast(rest);
      assert rest[|rest| - 1] == parts[|parts| - 1];
      var tail := Join(rest, "/");
      var front := parts[0] + "/";
      assert Join(parts, "/") == front + tail;
      assert (front + tail)[|front|..] == tail;
    }
  }

  /** The text of relative components does not start at the root. */
  lemma JoinNotRooted(rest: seq<string>)
    requires ValidComponents(rest) && rest != []
    ensures !StartsWith(Join(rest, "/"), "/")
  {
    var j := Join(rest, "/");
    assert StartsWith(j, rest[0]);
    assert j[0] == rest[0][0];
  }

  /** The text of a path with components does not end in '/'. */
  lemma PathTextNotSlashEnded(base: FsPath)
    requires ValidComponents(base.components) && base.components != []
    ensures !EndsWith(PathText(base), "/")
  {
    var cs := base.components;
    var last := cs[|cs| - 1];
    JoinEndsWithLast(cs);
    var t := PathText(base);
    assert t[|t| - 1] == last[|last| - 1];
    assert last[|last| - 1] in last;
  }

  /**
   * Joining the text of relative components under a root gives the text of
   * the root with those components appended: `Path::join` on text agrees
   * with extending the component list.
   */
  lemma JoinPathAppends(base: FsPath, rest: seq<string>)
    requires ValidComponents(base.components) && ValidComponents(rest) && rest != []
    ensures JoinPath(PathText(base), Join(rest, "/")) == PathText(FsPath(base.absolute, base.components + rest))
  {
    var b := Join(rest, "/");
    JoinNotRooted(rest);
    assert !StartsWith(b, "/");
    var prefix := if base.absolute then "/" else "";
    var cs := base.components;
    var joined := FsPath(base.absolute, cs + rest);
    if cs == [] {
      assert cs + rest == rest;
      assert PathText(base) == prefix;
      assert PathText(joined) == prefix + b;
      if !base.absolute {
        assert prefix + b == b;
      }
    } else {
      var a := Join(cs, "/");
      var t := prefix + a;
      assert PathText(base) == t;
      PathTextNotSlashEnded(base);
      assert t != [] && !EndsWith(t, "/");
      assert JoinPath(t, b) == t + "/" + b;
      JoinAppend(cs, rest, "/");
      assert Join(cs + rest, "/") == a + "/" + b;
      Regroup(prefix, a, "/", b);
    }
  }

  lemma Regroup(p: string, a: string, s: string, b: string)
    ensures (p + a) + s + b == p + (a + s + b)
  {
  }

  /** `Path::strip_prefix`: the components after the root's, when the path lies under it. */
  function StripPrefix(p: FsPath, base: FsPath): (r: Option<seq<string>>)
    ensures r.Some? ==> p.absolute == base.absolute && p.components == base.components + r.value
    ensures r.None? ==> forall rest :: p != FsPath(base.absolute, base.components + rest)
  {
    var n := |base.components|;
    if p.absolute == base.absolute && n <= |p.components| && p.components[..n] == base.components then
      assert p.components == base.components + p.components[n..];
      Some(p.components[n..])
    else
      None
  }

  /** `normalize_match_path`: relative to the root when under it, with every '\\' turned into '/'. */
  function NormalizeMatchPath(p: FsPath, base: FsPath): (r: string)
    ensures '\\' !in r
  {
    var rel := StripPrefix(p, base);
    var text := if rel.Some? then Join(rel.value, "/") else PathText(p);
    ReplaceChar(text, '\\', '/')
  }

  /** Text with no `from` character is left as it is by `ReplaceChar`. */
  lemma ReplaceCharAbsent(s: string, from: char, to: char)
    requires from !in s
    ensures ReplaceChar(s, from, to) == s
  {
  }

  /** A path outside the root is reported as its own text, when that has no '\\'. */
  lemma NormalizeOutsideRoot(p: FsPath, base: FsPath)
    requires StripPrefix(p, base).None? && '\\' !in PathText(p)
    ensures NormalizeMatchPath(p, base) == PathText(p)
  {
    ReplaceCharAbsent(PathText(p), '\\', '/');
  }

  /**
   * A path strictly under the root is reported relative to it, and joining
   * the report back onto the root gives the path again.
   */
  lemma NormalizeRoundTrip(p: FsPath, base: FsPath)
    requires ValidComponents(p.components) && ValidComponents(base.components)
    requires StripPrefix(p, base).Some? && StripPrefix(p, base).value != []
    requires '\\' !in PathText(p)
    ensures JoinPath(PathText(base), NormalizeMatchPath(p, base)) == PathText(p)
  {
    var rest := StripPrefix(p, base).value;
    assert ValidComponents(rest) by {
      forall i | 0 <= i < |rest|
        ensures ValidComponent(rest[i])
      {
        assert rest[i] == p.components[|base.components| + i];
      }
    }
    JoinPathAppends(base, rest);
    var j := Join(rest, "/");
    assert EndsWith(PathText(p), j);
    var t := PathText(p);
    assert '\\' !in j;
    ReplaceCharAbsent(j, '\\', '/');
  }

  // ---------------------------------------------------------------------------
  // Collecting the matches

  const InvalidPatternZh: string := " / glob 模式 `"
  const InvalidPatternEndZh: string := "` 无效: "
  const ReadMatchZh: string := " / 读取 glob 匹配结果失败: "

  function InvalidPattern(pattern: string, err: string): string {
    "invalid glob pattern `" + pattern + "`: " + err + InvalidPatternZh + pattern + InvalidPatternEndZh + err
  }

  function ReadMatchFailed(err: string): string {
    "failed to read glob match: " + err + ReadMatchZh + err
  }

  /** The invalid-pattern error names the pattern in both languages. */
  lemma InvalidPatternNamesPattern(pattern: string, err: string)
    ensures Contains(InvalidPattern(pattern, err), "invalid glob pattern `" + pattern + "`")
    ensures Contains(InvalidPattern(pattern, err), "glob 模式 `" + pattern + "` 无效")
  {
    var m := InvalidPattern(pattern, err);
    var english := "invalid glob pattern `" + pattern + "`";
    var chinese := "glob 模式 `" + pattern + "` 无效";
    assert OccursAt(m, english, 0);
    var k := |english| + |": "| + |err| + |" / "|;
    assert m[k..k + |chinese|] == chinese;
    assert OccursAt(m, chinese, k);
  }

  /** `Vec::dedup`: consecutive repeats dropped; on a sorted input the result is increasing. */
  method Dedup(s: seq<string>) returns (out: seq<string>)
    ensures forall x :: x in out <==> x in s
    ensures forall k :: 0 <= k < |out| - 1 ==> out[k] != out[k + 1]
    ensures Sorted(s) ==> StrictlySorted(out)
  {
    out := [];
    var i := 0;
    while i < |s|
      invariant 0 <= i <= |s|
      invariant forall x :: x in out <==> x in s[..i]
      invariant i == 0 <==> out == []
      invariant i > 0 ==> out[|out| - 1] == s[i - 1]
      invariant forall k :: 0 <= k < |out| - 1 ==> out[k] != out[k + 1]
      invariant Sorted(s) ==> StrictlySorted(out)
    {
      if i == 0 || s[i] != out[|out| - 1] {
        if Sorted(s) && i > 0 {
          assert StrLe(s[i - 1], s[i]);
          StrictlySortedSnoc(out, s[i]);
        }
        out := out + [s[i]];
      }
      assert s[..i + 1] == s[..i] + [s[i]];
      i := i + 1;
    }
    assert s[..i] == s;
  }

  /** The path an entry of the glob walk stands for is among the matches. */
  ghost predicate IsMatchOf(x: string, entries: seq<Result<FsPath, string>>, base: FsPath) {
    exists i :: 0 <= i < |entries| && entries[i].Ok? && x == NormalizeMatchPath(entries[i].value, base)
  }

  /**
   * `collect_matches`, given what `glob::glob` produced for the search
   * pattern: an error for an invalid pattern, else the walk's entries. The
   * first unreadable entry is an error; otherwise the normalised paths come
   * back sorted and without duplicates.
   */
  method CollectMatches(pattern: string, base: FsPath, globbed: Result<seq<Result<FsPath, string>>, string>)
    returns (r: Result<seq<string>, string>)
    ensures globbed.Err? ==> r == Err(InvalidPattern(pattern, globbed.error))
    ensures globbed.Ok? ==> (r.Ok? <==> forall i :: 0 <= i < |globbed.value| ==> globbed.value[i].Ok?)
    ensures globbed.Ok? && r.Err? ==>
      exists i :: && 0 <= i < |globbed.value| && globbed.value[i].Err?
                  && r.error == ReadMatchFailed(globbed.value[i].error)
                  && forall j :: 0 <= j < i ==> globbed.value[j].Ok?
    ensures r.Ok? ==> StrictlySorted(r.value)
    ensures r.Ok? ==> forall x :: x in r.value <==> IsMatchOf(x, globbed.value, base)
  {
    if globbed.Err? {
      return Err(InvalidPattern(pattern, globbed.error));
    }
    var entries := globbed.value;
    var matches: seq<string> := [];
    var i := 0;
    while i < |entries|
      invariant 0 <= i <= |entries|
      invariant |matches| == i
      invariant forall k :: 0 <= k < i ==> entries[k].Ok? && matches[k] == NormalizeMatchPath(entries[k].value, base)
    {
      if entries[i].Err? {
        return Err(ReadMatchFailed(entries[i].error));
      }
      matches := matches + [NormalizeMatchPath(entries[i].value, base)];
      i := i + 1;
    }
    var sorted := SortStrings(matches);
    SortStringsSpec(matches);
    var unique := Dedup(sorted);
    forall x
      ensures x in unique <==> IsMatchOf(x, entries, base)
    {
      assert x in sorted <==> x in multiset(sorted);
      assert x in matches <==> x in multiset(matches);
      if IsMatchOf(x, entries, base) {
        var k :| 0 <= k < |entries| && entries[k].Ok? && x == NormalizeMatchPath(entries[k].value, base);
        assert matches[k] == x;
      }
    }
    return Ok(unique);
  }
}
