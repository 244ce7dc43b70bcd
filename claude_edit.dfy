/**
 * The Claude-style Edit tool: replace `old_string` by `new_string` in a
 * file's text, either at its single occurrence or, with `replace_all`, at
 * every non-overlapping occurrence, scanning left to right as
 * `str::match_indices`, `str::replace` and `str::replacen` do.
 */
module ClaudeEdit {
  import opened Wrappers
  import opened Text

  // ---------------------------------------------------------------------------
  // Matching and replacing

  /** `s.match_indices(p).count()`: non-overlapping occurrences, leftmost first. */
  function CountMatches(s: string, p: string): nat
    requires p != []
    decreases |s|
  {
    if |s| < |p| then 0
    else if s[..|p|] == p then 1 + CountMatches(s[|p|..], p)
    else CountMatches(s[1..], p)
  }

  /** `s.replace(p, q)`: every non-overlapping occurrence replaced, leftmost first. */
  function ReplaceAll(s: string, p: string, q: string): string
    requires p != []
    decreases |s|
  {
    if |s| < |p| then s
    else if s[..|p|] == p then q + ReplaceAll(s[|p|..], p, q)
    else [s[0]] + ReplaceAll(s[1..], p, q)
  }

  /** `s.replacen(p, q, 1)`: the leftmost occurrence replaced. */
  function ReplaceFirst(s: string, p: string, q: string): string
    requires p != []
    decreases |s|
  {
    if |s| < |p| then s
    else if s[..|p|] == p then q + s[|p|..]
    else [s[0]] + ReplaceFirst(s[1..], p, q)
  }

  /** Occurrences in the tail are occurrences one further along in the whole. */
  lemma OccursAtTail(s: string, p: string, j: int)
    requires s != [] && 0 <= j
    ensures OccursAt(s[1..], p, j) <==> OccursAt(s, p, j + 1)
  {
    if 0 <= j && j + |p| <= |s| - 1 {
      assert s[1..][j..j + |p|] == s[j + 1..j + 1 + |p|];
    }
  }

  /** Without an occurrence at the front, `s` contains `p` exactly when its tail does. */
  lemma ContainsTail(s: string, p: string)
    requires s != [] && !OccursAt(s, p, 0)
    ensures Contains(s, p) <==> Contains(s[1..], p)
  {
    if Contains(s, p) {
      var i :| 0 <= i <= |s| && OccursAt(s, p, i);
      OccursAtTail(s, p, i - 1);
    }
    if Contains(s[1..], p) {
      var j :| 0 <= j <= |s[1..]| && OccursAt(s[1..], p, j);
      OccursAtTail(s, p, j);
    }
  }

  /** The count is zero exactly when the text does not contain the pattern. */
  lemma {:induction false} CountMatchesZero(s: string, p: string)
    requires p != []
    ensures CountMatches(s, p) == 0 <==> !Contains(s, p)
    decreases |s|
  {
    if |s| < |p| {
      assert forall i :: !OccursAt(s, p, i);
    } else if s[..|p|] == p {
      assert OccursAt(s, p, 0);
    } else {
      assert !OccursAt(s, p, 0);
      ContainsTail(s, p);
      CountMatchesZero(s[1..], p);
    }
  }

  /** Replacing every occurrence changes the length by the count times the length difference. */
  lemma {:induction false} ReplaceAllLength(s: string, p: string, q: string)
    requires p != []
    ensures |ReplaceAll(s, p, q)| == |s| + CountMatches(s, p) * (|q| - |p|)
    decreases |s|
  {
    if |s| >= |p| {
      var d := |q| - |p|;
      if s[..|p|] == p {
        var rest := s[|p|..];
        ReplaceAllLength(rest, p, q);
        var c := CountMatches(rest, p);
        assert |ReplaceAll(s, p, q)| == |q| + |rest| + c * d;
        MulSuccLeft(c, d);
      } else {
        ReplaceAllLength(s[1..], p, q);
      }
    }
  }

  lemma MulSuccLeft(c: int, d: int)
    ensures (1 + c) * d == d + c * d
  {
  }

  /** Replacing a pattern by itself changes nothing. */
  lemma {:induction false} ReplaceAllSelf(s: string, p: string)
    requires p != []
    ensures ReplaceAll(s, p, p) == s
    decreases |s|
  {
    if |s| >= |p| {
      if s[..|p|] == p {
        ReplaceAllSelf(s[|p|..], p);
        assert s[..|p|] + s[|p|..] == s;
      } else {
        ReplaceAllSelf(s[1..], p);
        assert [s[0]] + s[1..] == s;
      }
    }
  }

  /** With no occurrence, replacing every occurrence changes nothing. */
  lemma {:induction false} ReplaceAllNoMatch(s: string, p: string, q: string)
    requires p != [] && CountMatches(s, p) == 0
    ensures ReplaceAll(s, p, q) == s
    decreases |s|
  {
    if |s| >= |p| {
      ReplaceAllNoMatch(s[1..], p, q);
      assert [s[0]] + s[1..] == s;
    }
  }

  /** With at most one occurrence, replacing all and replacing the first agree. */
  lemma {:induction false} ReplaceAllSingle(s: string, p: string, q: string)
    requires p != [] && CountMatches(s, p) <= 1
    ensures ReplaceAll(s, p, q) == ReplaceFirst(s, p, q)
    decreases |s|
  {
    if |s| >= |p| {
      if s[..|p|] == p {
        ReplaceAllNoMatch(s[|p|..], p, q);
      } else {
        ReplaceAllSingle(s[1..], p, q);
      }
    }
  }

  /** A leftmost occurrence past the front is the leftmost occurrence of the tail, one earlier. */
  lemma FirstOccurrenceInTail(s: string, p: string, i: nat)
    requires 0 < i && OccursAt(s, p, i)
    requires forall j :: 0 <= j < i ==> !OccursAt(s, p, j)
    ensures OccursAt(s[1..], p, i - 1)
    ensures forall j :: 0 <= j < i - 1 ==> !OccursAt(s[1..], p, j)
  {
    OccursAtTail(s, p, i - 1);
    forall j | 0 <= j < i - 1
      ensures !OccursAt(s[1..], p, j)
    {
      OccursAtTail(s, p, j);
    }
  }

  /**
   * Replacing the first occurrence splices `q` in at the leftmost index `i`
   * where `p` occurs: the text before it, then `q`, then the text after it.
   */
  lemma {:induction false} ReplaceFirstAt(s: string, p: string, q: string, i: nat)
    requires p != [] && OccursAt(s, p, i)
    requires forall j :: 0 <= j < i ==> !OccursAt(s, p, j)
    ensures ReplaceFirst(s, p, q) == s[..i] + q + s[i + |p|..]
    decreases i
  {
    if i == 0 {
      assert s[..|p|] == p;
    } else {
      assert !OccursAt(s, p, 0) && |p| <= |s|;
      var t := s[1..];
      FirstOccurrenceInTail(s, p, i);
      ReplaceFirstAt(t, p, q, i - 1);
      calc {
        ReplaceFirst(s, p, q);
        [s[0]] + ReplaceFirst(t, p, q);
        [s[0]] + (t[..i - 1] + q + t[i - 1 + |p|..]);
        { assert [s[0]] + t[..i - 1] == s[..i]; assert t[i - 1 + |p|..] == s[i + |p|..]; }
        s[..i] + q + s[i + |p|..];
      }
    }
  }

  /** Without an occurrence, replacing the first occurrence changes nothing. */
  lemma {:induction false} ReplaceFirstAbsent(s: string, p: string, q: string)
    requires p != [] && !Contains(s, p)
    ensures ReplaceFirst(s, p, q) == s
    decreases |s|
  {
    if |s| >= |p| {
      assert !OccursAt(s, p, 0);
      ContainsTail(s, p);
      ReplaceFirstAbsent(s[1..], p, q);
      assert [s[0]] + s[1..] == s;
    }
  }

  // ---------------------------------------------------------------------------
  // The edit

  /** `EditResult`: the new text and how many occurrences were replaced. */
  datatype EditResult = EditResult(updatedContent: string, replacements: nat)

  const OldStringRequired: string := "old_string must not be empty / old_string 不能为空"

  /** The characters of the preview: at most `limit` from the front. */
  function Preview(input: string, limit: nat): (r: string)
    ensures |r| == if limit < |input| then limit else |input|
    ensures StartsWith(input, r)
  {
    if limit < |input| then input[..limit] else input
  }

  /** `preview_text`: push the first `limit` characters, one at a time. */
  method PreviewText(input: string, limit: nat) returns (preview: string)
    ensures preview == Preview(input, limit)
  {
    preview := [];
    var i := 0;
    while i < |input| && i < limit
      invariant 0 <= i <= |input| && i <= limit
      invariant preview == input[..i]
    {
      preview := preview + [input[i]];
      i := i + 1;
    }
    if i == |input| {
      assert input[..i] == input;
    }
  }

  function NotFoundMessage(preview: string): string {
    "old_string not found in file: `" + preview + "` / 文件中未找到 old_string: `" + preview + "`"
  }

  function NotUniqueMessage(occurrences: nat): string {
    var n := NatToString(occurrences);
    "old_string is not unique (found " + n + " matches); set replace_all=true / old_string 非唯一（找到 "
    + n + " 处匹配），请设置 replace_all=true"
  }

  /**
   * `compute_edited_content`: an empty `old_string`, no occurrence, or more
   * than one occurrence without `replace_all` is an error; otherwise every
   * occurrence (`replace_all`) or the single one is replaced.
   */
  function ComputeEditedContent(original: string, oldString: string, newString: string, replaceAll: bool)
    : (r: Result<EditResult, string>)
    ensures oldString == [] ==> r == Err(OldStringRequired)
    ensures oldString != [] ==>
      && (!Contains(original, oldString) ==> r == Err(NotFoundMessage(Preview(oldString, 80))))
      && (r.Ok? <==> Contains(original, oldString) && (replaceAll || CountMatches(original, oldString) == 1))
      && (r.Ok? && replaceAll ==>
            r.value == EditResult(ReplaceAll(original, oldString, newString), CountMatches(original, oldString)))
      && (r.Ok? && !replaceAll ==>
            var i := FindFrom(original, oldString, 0).value;
            r.value == EditResult(original[..i] + newString + original[i + |oldString|..], 1))
  {
    if oldString == [] then Err(OldStringRequired)
    else
      var occurrences := CountMatches(original, oldString);
      CountMatchesZero(original, oldString);
      FindFromContains(original, oldString);
      if occurrences == 0 then Err(NotFoundMessage(Preview(oldString, 80)))
      else if occurrences > 1 && !replaceAll then Err(NotUniqueMessage(occurrences))
      else if replaceAll then Ok(EditResult(ReplaceAll(original, oldString, newString), occurrences))
      else
        var i := FindFrom(original, oldString, 0).value;
        ReplaceFirstAt(original, oldString, newString, i);
        Ok(EditResult(ReplaceFirst(original, oldString, newString), 1))
  }

  /** With a single occurrence, replacing it alone and replacing every occurrence give the same text. */
  lemma SingleEditMatchesReplaceAll(original: string, oldString: string, newString: string)
    requires oldString != [] && CountMatches(original, oldString) == 1
    ensures ComputeEditedContent(original, oldString, newString, false).Ok?
    ensures ComputeEditedContent(original, oldString, newString, false).value
         == ComputeEditedContent(original, oldString, newString, true).value
  {
    CountMatchesZero(original, oldString);
    FindFromContains(original, oldString);
    ReplaceAllSingle(original, oldString, newString);
    var i := FindFrom(original, oldString, 0).value;
    ReplaceFirstAt(original, oldString, newString, i);
  }

  /** The non-unique error names the number of matches, as in "found 2 matches". */
  lemma NotUniqueNamesCount(original: string, oldString: string, newString: string)
    requires oldString != [] && CountMatches(original, oldString) > 1
    ensures ComputeEditedContent(original, oldString, newString, false)
         == Err(NotUniqueMessage(CountMatches(original, oldString)))
  {
    CountMatchesZero(original, oldString);
  }

  /** `validate_absolute_path` on a Unix path: it must start at the root. */
  function ValidateAbsolutePath(rawPath: string, fieldName: string): (r: Result<string, string>)
    ensures r.Ok? <==> StartsWith(rawPath, "/")
    ensures r.Ok? ==> r.value == rawPath
    ensures r.Err? ==> r.error == fieldName + " must be an absolute path / " + fieldName + " 必须是绝对路径"
  {
    if StartsWith(rawPath, "/") then Ok(rawPath)
    else Err(fieldName + " must be an absolute path / " + fieldName + " 必须是绝对路径")
  }
}
