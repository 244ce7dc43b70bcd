/**
 * The Claude-style tool aliases (Task, TaskOutput, Read, Grep, TodoWrite, ...)
 * and the argument mapping that turns each alias's arguments into the
 * payload of the internal tool it forwards to. A payload is a JSON object
 * built by successive inserts; every text argument goes through
 * `NormalizeText` first, so blank text counts as absent.
 */
module ClaudeToolAdapter {
  import opened Wrappers
  import opened Text
  import opened Json

  // ---------------------------------------------------------------------------
  // Text normalisation

  /** `normalize_text`: the trimmed text, or None when that is empty. */
  function NormalizeText(value: Option<string>): (r: Option<string>)
    ensures r.Some? <==> value.Some? && !IsBlank(value.value)
    ensures r.Some? ==> r.value == Trim(value.value) && r.value != []
  {
    if value.None? then None
    else
      var t := Trim(value.value);
      if t == [] then None else Some(t)
  }

  /** Normalising twice changes nothing. */
  lemma NormalizeTextIdempotent(value: Option<string>)
    ensures NormalizeText(NormalizeText(value)) == NormalizeText(value)
  {
    if value.Some? {
      TrimIdempotent(value.value);
    }
  }

  /** `required_non_empty_text`: the normalised text, or the given error. */
  function RequiredNonEmptyText(value: Option<string>, errorMessage: string): (r: Result<string, string>)
    ensures r.Err? <==> NormalizeText(value).None?
    ensures r.Err? ==> r.error == errorMessage
    ensures r.Ok? ==> r.value == NormalizeText(value).value
  {
    match NormalizeText(value)
    case None => Err(errorMessage)
    case Some(t) => Ok(t)
  }

  /** `is_supported_agent_type`. */
  predicate IsSupportedAgentType(value: string) {
    value == "default" || value == "worker" || value == "explorer" || value == "orchestrator"
  }

  /** `a.or_else(|| b)`. */
  function OrElse<T>(a: Option<T>, b: Option<T>): Option<T> {
    if a.Some? then a else b
  }

  /** A JSON string for present text. */
  function StrValue(s: Option<string>): Option<Json> {
    if s.Some? then Some(JStr(s.value)) else None
  }

  // ---------------------------------------------------------------------------
  // Identifiers from headers

  predicate IsIdentChar(c: char) {
    IsAsciiLower(c) || IsAsciiDigit(c) || c == '_'
  }

  predicate AllIdentChars(s: string) {
    forall i :: 0 <= i < |s| ==> IsIdentChar(s[i])
  }

  predicate NoDoubleSep(s: string) {
    forall i :: 0 <= i < |s| - 1 ==> !(s[i] == '_' && s[i + 1] == '_')
  }

  /** A slug: lower-case ASCII letters, digits and single `_`, with no `_` at either end. */
  predicate IsSlugIdentifier(s: string) {
    && s != []
    && AllIdentChars(s)
    && NoDoubleSep(s)
    && s[0] != '_' && s[|s| - 1] != '_'
  }

  /** A character's contribution to `Alnums`. */
  function AlnumPart(c: char): string {
    if IsAsciiAlnum(c) then [c] else []
  }

  /** The ASCII letters and digits of a string, in order. */
  function Alnums(s: string): (r: string)
    ensures |r| <= |s|
  {
    if s == [] then [] else AlnumPart(s[0]) + Alnums(s[1..])
  }

  lemma {:induction false} AlnumsAppend(a: string, b: string)
    ensures Alnums(a + b) == Alnums(a) + Alnums(b)
  {
    if a == [] {
      assert a + b == b;
    } else {
      var ab := a + b;
      assert ab[0] == a[0] && ab[1..] == a[1..] + b;
      AlnumsAppend(a[1..], b);
      var h := AlnumPart(a[0]);
      calc {
        Alnums(ab);
        h + Alnums(a[1..] + b);
        h + (Alnums(a[1..]) + Alnums(b));
        (h + Alnums(a[1..])) + Alnums(b);
      }
    }
  }

  /**
   * The string the loop of `slugify_to_identifier` builds: each ASCII letter
   * or digit lower-cased, each run of anything else one `_`; `prevSep` says
   * whether the last character pushed was a `_`.
   */
  function SlugChars(text: string, prevSep: bool): string {
    if text == [] then []
    else if IsAsciiAlnum(text[0]) then [AsciiLower(text[0])] + SlugChars(text[1..], false)
    else if !prevSep then ['_'] + SlugChars(text[1..], true)
    else SlugChars(text[1..], true)
  }

  /** The loop pushes only identifier characters, and no `_` first after a `_`. */
  lemma {:induction false} SlugCharsChars(text: string, prevSep: bool)
    ensures AllIdentChars(SlugChars(text, prevSep))
    ensures prevSep && SlugChars(text, prevSep) != [] ==> SlugChars(text, prevSep)[0] != '_'
  {
    if text != [] {
      SlugCharsChars(text[1..], !IsAsciiAlnum(text[0]));
      var rest := SlugChars(text[1..], !IsAsciiAlnum(text[0]));
      if IsAsciiAlnum(text[0]) {
        var c := AsciiLower(text[0]);
        assert IsIdentChar(c);
        ConsIdentChars(c, rest);
      } else if !prevSep {
        ConsIdentChars('_', rest);
      }
    }
  }

  lemma ConsIdentChars(c: char, rest: string)
    requires IsIdentChar(c) && AllIdentChars(rest)
    ensures AllIdentChars([c] + rest)
  {
    var s := [c] + rest;
    assert forall i :: 0 < i < |s| ==> s[i] == rest[i - 1];
  }

  /** The loop never pushes two `_` in a row. */
  lemma {:induction false} SlugCharsNoDoubleSep(text: string, prevSep: bool)
    ensures NoDoubleSep(SlugChars(text, prevSep))
  {
    if text != [] {
      SlugCharsNoDoubleSep(text[1..], !IsAsciiAlnum(text[0]));
      SlugCharsChars(text[1..], !IsAsciiAlnum(text[0]));
      var rest := SlugChars(text[1..], !IsAsciiAlnum(text[0]));
      if IsAsciiAlnum(text[0]) {
        var c := AsciiLower(text[0]);
        assert c != '_';
        ConsNoDoubleSep(c, rest);
      } else if !prevSep {
        ConsNoDoubleSep('_', rest);
      }
    }
  }

  lemma ConsNoDoubleSep(c: char, rest: string)
    requires NoDoubleSep(rest) && (c == '_' ==> rest == [] || rest[0] != '_')
    ensures NoDoubleSep([c] + rest)
  {
    var s := [c] + rest;
    assert forall i :: 0 < i < |s| ==> s[i] == rest[i - 1];
  }

  lemma AsciiLowerStrCons(c: char, s: string)
    ensures AsciiLowerStr([c] + s) == [AsciiLower(c)] + AsciiLowerStr(s)
  {
    var l := [c] + s;
    assert forall i :: 0 < i < |l| ==> l[i] == s[i - 1];
  }

  /** A letter or digit in front adds itself; any other character adds nothing. */
  lemma AlnumsCons(c: char, rest: string)
    ensures Alnums([c] + rest) == AlnumPart(c) + Alnums(rest)
  {
    assert ([c] + rest)[0] == c && ([c] + rest)[1..] == rest;
  }

  /** The letters and digits of the loop's output are those of the text, lower-cased. */
  lemma {:induction false} SlugCharsAlnums(text: string, prevSep: bool)
    ensures Alnums(SlugChars(text, prevSep)) == AsciiLowerStr(Alnums(text))
  {
    if text != [] {
      var sep := !IsAsciiAlnum(text[0]);
      var rest := SlugChars(text[1..], sep);
      SlugCharsAlnums(text[1..], sep);
      if !sep {
        SlugCharsAlnumStep(text, prevSep, rest);
      } else if !prevSep {
        assert SlugChars(text, prevSep) == ['_'] + rest;
        AlnumsCons('_', rest);
      }
    }
  }

  lemma SlugCharsAlnumStep(text: string, prevSep: bool, rest: string)
    requires text != [] && IsAsciiAlnum(text[0])
    requires rest == SlugChars(text[1..], false)
    requires Alnums(rest) == AsciiLowerStr(Alnums(text[1..]))
    ensures Alnums(SlugChars(text, prevSep)) == AsciiLowerStr(Alnums(text))
  {
    var c := AsciiLower(text[0]);
    assert IsAsciiAlnum(c);
    assert SlugChars(text, prevSep) == [c] + rest;
    AlnumsCons(c, rest);
    assert Alnums(text) == [text[0]] + Alnums(text[1..]);
    AsciiLowerStrCons(text[0], Alnums(text[1..]));
  }

  lemma AppendAssoc(a: string, b: string, c: string)
    ensures (a + b) + c == a + (b + c)
  {
  }

  /** One step of the loop: the character's contribution, then the rest of the text. */
  lemma SlugCharsStep(text: string, i: nat, prevSep: bool)
    requires i < |text|
    ensures SlugChars(text[i..], prevSep) ==
      (if IsAsciiAlnum(text[i]) then [AsciiLower(text[i])] else if !prevSep then ['_'] else [])
      + SlugChars(text[i + 1..], !IsAsciiAlnum(text[i]))
  {
    assert text[i..][0] == text[i] && text[i..][1..] == text[i + 1..];
  }

  /** The identifier a text slugs to, or None when it has no ASCII letter or digit. */
  function SlugOf(text: string): Option<string> {
    var t := TrimChar(SlugChars(text, false), '_');
    if t == [] then None else Some(t)
  }

  lemma {:induction false} AllSeparators(s: string)
    requires forall i :: 0 <= i < |s| ==> s[i] == '_'
    ensures Alnums(s) == []
  {
    if s != [] {
      AllSeparators(s[1..]);
    }
  }

  /** Separators around a slice add no letters or digits. */
  lemma AlnumsFramed(s: string, a: nat, b: nat)
    requires a <= b <= |s|
    requires forall i :: 0 <= i < a ==> s[i] == '_'
    requires forall i :: b <= i < |s| ==> s[i] == '_'
    ensures Alnums(s) == Alnums(s[a..b])
  {
    var p, m, q := s[..a], s[a..b], s[b..];
    SplitThree(s, a, b);
    AlnumsAppend(p + m, q);
    AlnumsAppend(p, m);
    AllSeparators(p);
    forall i | 0 <= i < |q|
      ensures q[i] == '_'
    {
      assert q[i] == s[b + i];
    }
    AllSeparators(q);
    assert Alnums(p + m) == Alnums(m);
  }

  /** A slice of the loop's output that does not start with `_` keeps its shape. */
  lemma SliceIsSlug(s: string, a: nat, b: nat)
    requires a < b <= |s|
    requires AllIdentChars(s) && NoDoubleSep(s)
    requires s[a] != '_' && s[b - 1] != '_'
    ensures IsSlugIdentifier(s[a..b])
  {
    var t := s[a..b];
    assert forall i :: 0 <= i < |t| ==> t[i] == s[a + i];
    forall i | 0 <= i < |t| - 1
      ensures !(t[i] == '_' && t[i + 1] == '_')
    {
      assert t[i] == s[a + i] && t[i + 1] == s[a + i + 1];
    }
  }

  /** A string whose first character is a letter or digit has some. */
  lemma AlnumsOfLeading(t: string)
    requires t != [] && IsAsciiAlnum(t[0])
    ensures Alnums(t) != []
  {
  }

  /**
   * A slug exists exactly when the text has an ASCII letter or digit; it is
   * a well-formed identifier, and its letters and digits are those of the
   * text, lower-cased and in order.
   */
  lemma SlugOfSpec(text: string)
    ensures SlugOf(text).Some? <==> Alnums(text) != []
    ensures SlugOf(text).Some? ==> IsSlugIdentifier(SlugOf(text).value)
    ensures SlugOf(text).Some? ==> Alnums(SlugOf(text).value) == AsciiLowerStr(Alnums(text))
  {
    var s := SlugChars(text, false);
    SlugCharsChars(text, false);
    SlugCharsNoDoubleSep(text, false);
    SlugCharsAlnums(text, false);
    var a, b := TrimCharSlice(s, '_');
    AlnumsFramed(s, a, b);
    var t := s[a..b];
    if t != [] {
      assert t[0] == s[a] && t[|t| - 1] == s[b - 1];
      SliceIsSlug(s, a, b);
      AlnumsOfLeading(t);
    } else {
      assert Alnums(t) == [];
    }
  }

  /** `slugify_to_identifier`. */
  method SlugifyToIdentifier(value: Option<string>) returns (r: Option<string>)
    ensures NormalizeText(value).None? ==> r.None?
    ensures NormalizeText(value).Some? ==> r == SlugOf(NormalizeText(value).value)
  {
    var normalized := NormalizeText(value);
    if normalized.None? {
      return None;
    }
    var text := normalized.value;
    var out: string := [];
    var previousWasSep := false;
    var i := 0;
    while i < |text|
      invariant 0 <= i <= |text|
      invariant out + SlugChars(text[i..], previousWasSep) == SlugChars(text, false)
    {
      var ch := text[i];
      SlugCharsStep(text, i, previousWasSep);
      ghost var before := out;
      ghost var piece: string := [];
      if IsAsciiAlnum(ch) {
        piece := [AsciiLower(ch)];
        out := out + [AsciiLower(ch)];
        previousWasSep := false;
      } else if !previousWasSep {
        piece := ['_'];
        out := out + ['_'];
        previousWasSep := true;
      }
      AppendAssoc(before, piece, SlugChars(text[i + 1..], previousWasSep));
      i := i + 1;
    }
    assert text[i..] == [];
    assert out == SlugChars(text, false);
    var trimmed := TrimChar(out, '_');
    r := if trimmed == [] then None else Some(trimmed);
  }

  // ---------------------------------------------------------------------------
  // Alias table

  /** Where an alias forwards to. */
  datatype AliasTarget =
    | SpawnAgentTool      // Task, Skill
    | WaitTool            // TaskOutput
    | CloseAgentTool      // TaskStop
    | SearchTool          // ToolSearch
    | RequestUserInputTool // AskUserQuestion
    | ExecCommandTool     // Bash
    | ReadFileTool        // Read
    | GrepFilesTool       // Grep
    | UpdatePlanTool      // TodoWrite
    | PlanMode            // EnterPlanMode
    | DefaultMode         // ExitPlanMode

  /** The alias dispatch of `handle`. */
  function ResolveAlias(toolName: string): (r: Result<AliasTarget, string>)
    ensures r.Err? <==> toolName !in {"Task", "TaskOutput", "TaskStop", "ToolSearch", "Skill", "AskUserQuestion",
                                      "Bash", "Read", "Grep", "TodoWrite", "EnterPlanMode", "ExitPlanMode"}
    ensures r == Ok(SpawnAgentTool) <==> toolName == "Task" || toolName == "Skill"
    ensures r.Err? ==> r.error == "unsupported Claude tool alias " + toolName + " / 不支持的 Claude 工具别名: " + toolName
  {
    if toolName == "Task" then Ok(SpawnAgentTool)
    else if toolName == "TaskOutput" then Ok(WaitTool)
    else if toolName == "TaskStop" then Ok(CloseAgentTool)
    else if toolName == "ToolSearch" then Ok(SearchTool)
    else if toolName == "Skill" then Ok(SpawnAgentTool)
    else if toolName == "AskUserQuestion" then Ok(RequestUserInputTool)
    else if toolName == "Bash" then Ok(ExecCommandTool)
    else if toolName == "Read" then Ok(ReadFileTool)
    else if toolName == "Grep" then Ok(GrepFilesTool)
    else if toolName == "TodoWrite" then Ok(UpdatePlanTool)
    else if toolName == "EnterPlanMode" then Ok(PlanMode)
    else if toolName == "ExitPlanMode" then Ok(DefaultMode)
    else Err("unsupported Claude tool alias " + toolName + " / 不支持的 Claude 工具别名: " + toolName)
  }

  // ---------------------------------------------------------------------------
  // Task, TaskOutput, TaskStop, ToolSearch, Skill

  const QueryRequired: string := "query must not be empty / query 不能为空"
  const MaxResultsPositive: string := "max_results must be greater than zero / max_results 必须大于 0"
  const SkillRequired: string := "skill must not be empty / skill 不能为空"
  const OptionLabelRequired: string := "option.label must not be empty / option.label 不能为空"
  const OptionDescriptionRequired: string := "option.description must not be empty / option.description 不能为空"
  const QuestionHeaderRequired: string := "question.header must not be empty / question.header 不能为空"
  const QuestionTextRequired: string := "question.question must not be empty / question.question 不能为空"
  const CommandRequired: string := "command must not be empty / command 不能为空"
  const ReadPagesUnsupported: string := "Read.pages is not supported yet / 暂不支持 Read.pages"
  const OffsetPositive: string := "offset must be greater than zero / offset 必须大于 0"
  const LimitPositive: string := "limit must be greater than zero / limit 必须大于 0"
  const FilePathRequired: string := "file_path must not be empty / file_path 不能为空"
  const GrepOutputModeUnsupported: string := "Grep.output_mode only supports files_with_matches / Grep.output_mode 仅支持 files_with_matches"
  const GrepOffsetUnsupported: string := "Grep.offset is not supported / Grep.offset 暂不支持"
  const PatternRequired: string := "pattern must not be empty / pattern 不能为空"
  const TodosRequired: string := "todos must not be empty / todos 不能为空"
  const TodoStepRequired: string := "todo.content or todo.activeForm must not be empty / todo.content 或 todo.activeForm 不能为空"
  const PromptRequired: string := "prompt must not be empty / prompt 不能为空"
  const AgentIdRequired: string := "agent_id must not be empty / agent_id 不能为空"
  const NegativeTimeout: string := "timeout must be greater than or equal to zero / timeout 必须大于等于 0"

  datatype TaskArgs = TaskArgs(
    description: Option<string>, prompt: Option<string>, subagentType: Option<string>,
    model: Option<string>, preset: Option<string>, name: Option<string>)

  function TextItem(text: string): Json {
    JObj(map["type" := JStr("text"), "text" := JStr(text)])
  }

  /** `if let Some(v) = .. { payload.insert(key, v) }`: sets `key` only when there is a value. */
  function InsertIfSome(m: map<string, Json>, key: string, v: Option<Json>): (r: map<string, Json>)
    ensures Lookup(r, key) == (if v.Some? then v else Lookup(m, key))
    ensures forall k :: k != key ==> Lookup(r, k) == Lookup(m, k)
    ensures r.Keys == if v.Some? then m.Keys + {key} else m.Keys
  {
    if v.Some? then m[key := v.value] else m
  }

  /** The spawn payload built field by field: each key holds its own value and nothing else is set. */
  function SpawnFields(items: Json, agent: Option<Json>, name: Option<Json>, model: Option<Json>, preset: Option<Json>): (r: map<string, Json>)
    ensures Lookup(r, "items") == Some(items)
    ensures Lookup(r, "agent_type") == agent
    ensures Lookup(r, "name") == name
    ensures Lookup(r, "model") == model
    ensures Lookup(r, "preset") == preset
    ensures r.Keys <= {"items", "agent_type", "name", "model", "preset"}
  {
    var m0: map<string, Json> := map["items" := items];
    assert Lookup(m0, "agent_type") == None && Lookup(m0, "name") == None;
    assert Lookup(m0, "model") == None && Lookup(m0, "preset") == None;
    var m1 := InsertIfSome(m0, "agent_type", agent);
    var m2 := InsertIfSome(m1, "name", name);
    var m3 := InsertIfSome(m2, "model", model);
    InsertIfSome(m3, "preset", preset)
  }

  /**
   * `map_task_to_spawn_payload`: the prompt is required and becomes the one
   * text item; `agent_type` is forwarded only when supported; `name` is the
   * name, else the description.
   */
  method MapTaskToSpawnPayload(args: TaskArgs) returns (r: Result<map<string, Json>, string>)
    ensures r.Err? <==> NormalizeText(args.prompt).None?
    ensures r.Err? ==> r.error == PromptRequired
    ensures r.Ok? ==>
      var agentType := NormalizeText(args.subagentType);
      && Lookup(r.value, "items") == Some(JArr([TextItem(NormalizeText(args.prompt).value)]))
      && Lookup(r.value, "agent_type") ==
           (if agentType.Some? && IsSupportedAgentType(agentType.value) then Some(JStr(agentType.value)) else None)
      && Lookup(r.value, "name") == StrValue(OrElse(NormalizeText(args.name), NormalizeText(args.description)))
      && Lookup(r.value, "model") == StrValue(NormalizeText(args.model))
      && Lookup(r.value, "preset") == StrValue(NormalizeText(args.preset))
      && r.value.Keys <= {"items", "agent_type", "name", "model", "preset"}
  {
    var prompt := RequiredNonEmptyText(args.prompt, PromptRequired);
    if prompt.Err? {
      return Err(prompt.error);
    }
    var agentType := NormalizeText(args.subagentType);
    var supported := if agentType.Some? && IsSupportedAgentType(agentType.value) then agentType else None;
    var payload := SpawnFields(
      JArr([TextItem(prompt.value)]),
      StrValue(supported),
      StrValue(OrElse(NormalizeText(args.name), NormalizeText(args.description))),
      StrValue(NormalizeText(args.model)),
      StrValue(NormalizeText(args.preset)));
    r := Ok(payload);
  }

  /**
   * `map_task_output_to_wait_payload`: `block` defaults to true; a
   * non-blocking call always waits 0 ms; a blocking call forwards its timeout,
   * which must not be negative, and without one sets no `timeout_ms`.
   */
  method MapTaskOutputToWaitPayload(agentId: Option<string>, block: Option<bool>, timeout: Option<int>)
    returns (r: Result<map<string, Json>, string>)
    ensures NormalizeText(agentId).None? ==> r == Err(AgentIdRequired)
    ensures NormalizeText(agentId).Some? ==>
      var blocking := block.UnwrapOr(true);
      && (r.Err? <==> blocking && timeout.Some? && timeout.value < 0)
      && (r.Err? ==> r.error == NegativeTimeout)
      && (r.Ok? ==> Lookup(r.value, "agent_ids") == Some(JArr([JStr(NormalizeText(agentId).value)])))
      && (r.Ok? && !blocking ==> Lookup(r.value, "timeout_ms") == Some(JNum(0)))
      && (r.Ok? && blocking ==> Lookup(r.value, "timeout_ms") == (if timeout.Some? then Some(JNum(timeout.value)) else None))
      && (r.Ok? ==> r.value.Keys <= {"agent_ids", "timeout_ms"})
  {
    var id := RequiredNonEmptyText(agentId, AgentIdRequired);
    if id.Err? {
      return Err(id.error);
    }
    var blocking := block.UnwrapOr(true);
    var payload: map<string, Json> := map[];
    payload := payload["agent_ids" := JArr([JStr(id.value)])];
    var timeoutMs := if blocking then timeout else Some(0);
    if timeoutMs.Some? {
      if blocking && timeoutMs.value < 0 {
        return Err(NegativeTimeout);
      }
      payload := payload["timeout_ms" := JNum(timeoutMs.value)];
    }
    r := Ok(payload);
  }

  /** `map_task_stop_to_close_payload`. */
  function MapTaskStopToClosePayload(agentId: Option<string>): (r: Result<map<string, Json>, string>)
    ensures r.Err? <==> NormalizeText(agentId).None?
    ensures r.Ok? ==> r.value == map["agent_id" := JStr(NormalizeText(agentId).value)]
  {
    match RequiredNonEmptyText(agentId, AgentIdRequired)
    case Err(e) => Err(e)
    case Ok(id) => Ok(map["agent_id" := JStr(id)])
  }

  /** `map_tool_search_payload`: the query is required; `max_results` must be positive and becomes `limit`. */
  method MapToolSearchPayload(query: Option<string>, maxResults: Option<nat>) returns (r: Result<map<string, Json>, string>)
    ensures NormalizeText(query).None? ==> r == Err(QueryRequired)
    ensures NormalizeText(query).Some? ==>
      && (r.Err? <==> maxResults == Some(0))
      && (r.Err? ==> r.error == MaxResultsPositive)
      && (r.Ok? ==> Lookup(r.value, "query") == Some(JStr(NormalizeText(query).value)))
      && (r.Ok? ==> Lookup(r.value, "limit") == (if maxResults.Some? then Some(JNum(maxResults.value)) else None))
  {
    var q := RequiredNonEmptyText(query, QueryRequired);
    if q.Err? {
      return Err(q.error);
    }
    var payload: map<string, Json> := map[];
    payload := payload["query" := JStr(q.value)];
    if maxResults.Some? {
      if maxResults.value == 0 {
        return Err(MaxResultsPositive);
      }
      payload := payload["limit" := JNum(maxResults.value)];
    }
    r := Ok(payload);
  }

  /** `map_skill_to_spawn_payload`: one skill item, then the arguments as a text item when present. */
  function MapSkillToSpawnPayload(skill: Option<string>, skillArgs: Option<string>): (r: Result<map<string, Json>, string>)
    ensures r.Err? <==> NormalizeText(skill).None?
    ensures r.Ok? ==>
      var name := NormalizeText(skill).value;
      && Lookup(r.value, "name") == Some(JStr("skill:" + name))
      && Lookup(r.value, "items").Some? && Lookup(r.value, "items").value.JArr?
      && var items := Lookup(r.value, "items").value.items;
      && |items| == (if NormalizeText(skillArgs).Some? then 2 else 1)
      && items[0] == JObj(map["type" := JStr("skill"), "name" := JStr(name), "path" := JStr("skill://" + name)])
      && (NormalizeText(skillArgs).Some? ==> items[1] == TextItem(NormalizeText(skillArgs).value))
  {
    match RequiredNonEmptyText(skill, SkillRequired)
    case Err(e) => Err(e)
    case Ok(name) =>
      var skillItem := JObj(map["type" := JStr("skill"), "name" := JStr(name), "path" := JStr("skill://" + name)]);
      var items := if NormalizeText(skillArgs).Some? then [skillItem, TextItem(NormalizeText(skillArgs).value)] else [skillItem];
      Ok(map["items" := JArr(items), "name" := JStr("skill:" + name)])
  }

  // ---------------------------------------------------------------------------
  // AskUserQuestion

  datatype QuestionOption = QuestionOption(optionLabel: Option<string>, description: Option<string>)
  datatype Question = Question(id: Option<string>, header: Option<string>, question: Option<string>,
                               options: Option<seq<QuestionOption>>)

  /** The mapped form of a request question. */
  datatype MappedQuestion = MappedQuestion(id: string, header: string, question: string, options: seq<(string, string)>)

  const QuestionsRequired: string := "questions must not be empty / questions 不能为空"
  const OptionsRequired: string := "question.options must not be empty / question.options 不能为空"

  /** The position of the first element of `s` that `fails`, or `|s|` when none does. */
  function FirstFailing<T>(s: seq<T>, fails: T -> bool): (k: nat)
    ensures k <= |s|
    ensures forall i :: 0 <= i < k ==> !fails(s[i])
    ensures k < |s| ==> fails(s[k])
  {
    if s == [] then 0
    else if fails(s[0]) then 0
    else
      var k := 1 + FirstFailing(s[1..], fails);
      assert forall i :: 0 < i < k ==> s[i] == s[1..][i - 1];
      k
  }

  /** The first failing position is `i` once every element before `i` passes and `s[i]` fails. */
  lemma FirstFailingAt<T>(s: seq<T>, fails: T -> bool, i: nat)
    requires i < |s| && fails(s[i])
    requires forall j :: 0 <= j < i ==> !fails(s[j])
    ensures FirstFailing(s, fails) == i
  {
  }

  /** The mapped option, or the first missing field's error. */
  function MapOption(o: QuestionOption): (r: Result<(string, string), string>)
    ensures r.Ok? <==> NormalizeText(o.optionLabel).Some? && NormalizeText(o.description).Some?
    ensures r.Ok? ==> r.value == (NormalizeText(o.optionLabel).value, NormalizeText(o.description).value)
    ensures NormalizeText(o.optionLabel).None? ==> r == Err(OptionLabelRequired)
    ensures NormalizeText(o.optionLabel).Some? && NormalizeText(o.description).None? ==>
      r == Err(OptionDescriptionRequired)
  {
    match RequiredNonEmptyText(o.optionLabel, OptionLabelRequired)
    case Err(e) => Err(e)
    case Ok(optionText) =>
      match RequiredNonEmptyText(o.description, OptionDescriptionRequired)
      case Err(e) => Err(e)
      case Ok(description) => Ok((optionText, description))
  }

  predicate OptionRefused(o: QuestionOption) {
    MapOption(o).Err?
  }

  /** All options mapped in order, or the first failing option's error. */
  function MapOptions(options: seq<QuestionOption>): (r: Result<seq<(string, string)>, string>)
    ensures r.Ok? <==> forall i :: 0 <= i < |options| ==> MapOption(options[i]).Ok?
    ensures r.Ok? ==> |r.value| == |options| && forall i :: 0 <= i < |options| ==> r.value[i] == MapOption(options[i]).value
  {
    if options == [] then Ok([])
    else match MapOption(options[0])
      case Err(e) => Err(e)
      case Ok(first) =>
        match MapOptions(options[1..])
        case Err(e) =>
          assert exists i :: 0 <= i < |options[1..]| && MapOption(options[1..][i]).Err?;
          Err(e)
        case Ok(rest) =>
          assert forall i :: 0 < i < |options| ==> options[1..][i - 1] == options[i];
          Ok([first] + rest)
  }

  /** A refused option list reports the error of its first refused option. */
  lemma {:induction false} MapOptionsFirstError(options: seq<QuestionOption>)
    ensures var k := FirstFailing(options, OptionRefused);
      k < |options| ==> MapOptions(options) == Err(MapOption(options[k]).error)
  {
    if options != [] && !OptionRefused(options[0]) {
      MapOptionsFirstError(options[1..]);
      assert FirstFailing(options, OptionRefused) == 1 + FirstFailing(options[1..], OptionRefused);
    }
  }

  /** A question `map_single_question` accepts: header, text and options all present and valid. */
  predicate QuestionAccepted(q: Question) {
    && NormalizeText(q.header).Some? && NormalizeText(q.question).Some?
    && q.options.Some? && q.options.value != [] && MapOptions(q.options.value).Ok?
  }


  /** The error `map_single_question` gives for `q`: header, text, options, then the options' own error. */
  function QuestionRefusal(q: Question): (e: Option<string>)
    ensures e.None? <==> QuestionAccepted(q)
  {
    if NormalizeText(q.header).None? then Some(QuestionHeaderRequired)
    else if NormalizeText(q.question).None? then Some(QuestionTextRequired)
    else if q.options.None? || q.options.value == [] then Some(OptionsRequired)
    else if MapOptions(q.options.value).Err? then Some(MapOptions(q.options.value).error)
    else None
  }

  predicate QuestionRefused(q: Question) {
    !QuestionAccepted(q)
  }

  /** The question id: the explicit id, else the header's slug, else `question_{index + 1}`. */
  function QuestionId(id: Option<string>, header: string, index: nat): string {
    if NormalizeText(id).Some? then NormalizeText(id).value
    else if SlugOf(header).Some? then SlugOf(header).value
    else "question_" + NatToString(index + 1)
  }

  /** `m` is what an accepted question at position `index` maps to. */
  predicate MapsTo(q: Question, index: nat, m: MappedQuestion)
    requires QuestionAccepted(q)
  {
    && m.header == NormalizeText(q.header).value
    && m.question == NormalizeText(q.question).value
    && m.options == MapOptions(q.options.value).value
    && m.id == QuestionId(q.id, m.header, index)
  }

  /**
   * `map_single_question`: header, question text and a non-empty option list
   * are required, in that order; the first missing one's error is returned.
   */
  method MapSingleQuestion(q: Question, index: nat) returns (r: Result<MappedQuestion, string>)
    ensures r.Ok? <==> QuestionAccepted(q)
    ensures r.Ok? ==> MapsTo(q, index, r.value)
    ensures NormalizeText(q.header).None? ==> r == Err(QuestionHeaderRequired)
    ensures NormalizeText(q.header).Some? && NormalizeText(q.question).None? ==> r == Err(QuestionTextRequired)
    ensures NormalizeText(q.header).Some? && NormalizeText(q.question).Some? &&
            (q.options.None? || q.options.value == []) ==>
      r == Err(OptionsRequired)
    ensures NormalizeText(q.header).Some? && NormalizeText(q.question).Some? &&
            q.options.Some? && q.options.value != [] && MapOptions(q.options.value).Err? ==>
      r == Err(MapOptions(q.options.value).error)
    ensures r.Err? ==> QuestionRefusal(q) == Some(r.error)
  {
    var header := RequiredNonEmptyText(q.header, QuestionHeaderRequired);
    if header.Err? {
      return Err(header.error);
    }
    var text := RequiredNonEmptyText(q.question, QuestionTextRequired);
    if text.Err? {
      return Err(text.error);
    }
    if q.options.None? || q.options.value == [] {
      return Err(OptionsRequired);
    }
    var options := MapOptions(q.options.value);
    if options.Err? {
      return Err(options.error);
    }
    var id := NormalizeText(q.id);
    if id.None? {
      NormalizeTextIdempotent(q.header);
      id := SlugifyToIdentifier(Some(header.value));
    }
    var questionId := if id.Some? then id.value else "question_" + NatToString(index + 1);
    r := Ok(MappedQuestion(questionId, header.value, text.value, options.value));
  }

  /**
   * `map_ask_user_question_to_request_payload`: a non-empty list; it maps
   * when every question does, each with its position, and otherwise fails.
   */
  method MapAskUserQuestion(questions: Option<seq<Question>>) returns (r: Result<seq<MappedQuestion>, string>)
    ensures questions.None? || questions.value == [] ==> r == Err(QuestionsRequired)
    ensures r.Ok? <==> questions.Some? && questions.value != [] && forall i :: 0 <= i < |questions.value| ==> QuestionAccepted(questions.value[i])
    ensures r.Ok? ==> |r.value| == |questions.value| && forall i :: 0 <= i < |r.value| ==> MapsTo(questions.value[i], i, r.value[i])
    ensures questions.Some? ==>
      var k := FirstFailing(questions.value, QuestionRefused);
      k < |questions.value| ==> r.Err? && QuestionRefusal(questions.value[k]) == Some(r.error)
  {
    if questions.None? || questions.value == [] {
      return Err(QuestionsRequired);
    }
    var qs := questions.value;
    var mapped: seq<MappedQuestion> := [];
    var i := 0;
    while i < |qs|
      invariant 0 <= i <= |qs| && |mapped| == i
      invariant forall j :: 0 <= j < i ==> QuestionAccepted(qs[j]) && MapsTo(qs[j], j, mapped[j])
    {
      var m := MapSingleQuestion(qs[i], i);
      if m.Err? {
        assert QuestionRefused(qs[i]);
        FirstFailingAt(qs, QuestionRefused, i);
        return Err(m.error);
      }
      mapped := mapped + [m.value];
      i := i + 1;
    }
    r := Ok(mapped);
  }

  // ---------------------------------------------------------------------------
  // Bash, Read, Grep

  /** `map_bash_to_exec_payload`: the command is required and the timeout becomes `yield_time_ms`. */
  method MapBashToExecPayload(command: Option<string>, timeout: Option<int>, description: Option<string>,
                              runInBackground: Option<bool>)
    returns (r: Result<map<string, Json>, string>)
    ensures NormalizeText(command).None? ==> r == Err(CommandRequired)
    ensures NormalizeText(command).Some? ==>
      && (r.Err? <==> timeout.Some? && timeout.value < 0)
      && (r.Err? ==> r.error == NegativeTimeout)
      && (r.Ok? ==>
            && Lookup(r.value, "cmd") == Some(JStr(NormalizeText(command).value))
            && Lookup(r.value, "yield_time_ms") == (if timeout.Some? then Some(JNum(timeout.value)) else None)
            && Lookup(r.value, "description") == StrValue(NormalizeText(description))
            && Lookup(r.value, "run_in_background") == (if runInBackground.Some? then Some(JBool(runInBackground.value)) else None))
  {
    var cmd := RequiredNonEmptyText(command, CommandRequired);
    if cmd.Err? {
      return Err(cmd.error);
    }
    if timeout.Some? && timeout.value < 0 {
      return Err(NegativeTimeout);
    }
    var payload: map<string, Json> := map[];
    payload := payload["cmd" := JStr(cmd.value)];
    if timeout.Some? {
      payload := payload["yield_time_ms" := JNum(timeout.value)];
    }
    var desc := NormalizeText(description);
    if desc.Some? {
      payload := payload["description" := JStr(desc.value)];
    }
    if runInBackground.Some? {
      payload := payload["run_in_background" := JBool(runInBackground.value)];
    }
    r := Ok(payload);
  }

  datatype ReadArgs = ReadArgs(filePath: Option<string>, offset: Option<nat>, limit: Option<nat>,
                               mode: Option<string>, indentation: Option<Json>, pages: Option<string>)

  /**
   * `map_read_to_read_file_payload`: refuses `pages`, a zero offset and a zero
   * limit, in that order, before requiring the path.
   */
  method MapReadToReadFilePayload(args: ReadArgs) returns (r: Result<map<string, Json>, string>)
    ensures args.pages.Some? ==> r == Err(ReadPagesUnsupported)
    ensures r.Ok? <==> args.pages.None? && args.offset != Some(0) && args.limit != Some(0)
                       && NormalizeText(args.filePath).Some?
    ensures args.pages.None? && args.offset == Some(0) ==> r == Err(OffsetPositive)
    ensures args.pages.None? && args.offset != Some(0) && args.limit == Some(0) ==>
      r == Err(LimitPositive)
    ensures args.pages.None? && args.offset != Some(0) && args.limit != Some(0) &&
            NormalizeText(args.filePath).None? ==>
      r == Err(FilePathRequired)
    ensures r.Ok? ==>
      && Lookup(r.value, "file_path") == Some(JStr(NormalizeText(args.filePath).value))
      && Lookup(r.value, "offset") == (if args.offset.Some? then Some(JNum(args.offset.value)) else None)
      && Lookup(r.value, "limit") == (if args.limit.Some? then Some(JNum(args.limit.value)) else None)
      && Lookup(r.value, "mode") == StrValue(NormalizeText(args.mode))
      && Lookup(r.value, "indentation") == args.indentation
  {
    if args.pages.Some? {
      return Err(ReadPagesUnsupported);
    }
    if args.offset == Some(0) {
      return Err(OffsetPositive);
    }
    if args.limit == Some(0) {
      return Err(LimitPositive);
    }
    var path := RequiredNonEmptyText(args.filePath, FilePathRequired);
    if path.Err? {
      return Err(path.error);
    }
    var payload: map<string, Json> := map[];
    payload := payload["file_path" := JStr(path.value)];
    if args.offset.Some? {
      payload := payload["offset" := JNum(args.offset.value)];
    }
    if args.limit.Some? {
      payload := payload["limit" := JNum(args.limit.value)];
    }
    var mode := NormalizeText(args.mode);
    if mode.Some? {
      payload := payload["mode" := JStr(mode.value)];
    }
    if args.indentation.Some? {
      payload := payload["indentation" := args.indentation.value];
    }
    r := Ok(payload);
  }

  datatype GrepArgs = GrepArgs(pattern: Option<string>, path: Option<string>, glob: Option<string>,
                               headLimit: Option<nat>, outputMode: Option<string>, offset: Option<nat>)

  /**
   * `map_grep_to_grep_files_payload`: only the `files_with_matches` output
   * mode and no positive offset are accepted; `glob` becomes `include` and
   * `head_limit` becomes `limit`.
   */
  method MapGrepToGrepFilesPayload(args: GrepArgs) returns (r: Result<map<string, Json>, string>)
    ensures r.Ok? <==>
      && (NormalizeText(args.outputMode).None? || NormalizeText(args.outputMode).value == "files_with_matches")
      && (args.offset.None? || args.offset.value == 0)
      && NormalizeText(args.pattern).Some?
    ensures NormalizeText(args.outputMode).Some? && NormalizeText(args.outputMode).value != "files_with_matches" ==>
      r == Err(GrepOutputModeUnsupported)
    ensures (NormalizeText(args.outputMode).None? || NormalizeText(args.outputMode).value == "files_with_matches") &&
            args.offset.Some? && args.offset.value > 0 ==>
      r == Err(GrepOffsetUnsupported)
    ensures (NormalizeText(args.outputMode).None? || NormalizeText(args.outputMode).value == "files_with_matches") &&
            (args.offset.None? || args.offset.value == 0) && NormalizeText(args.pattern).None? ==>
      r == Err(PatternRequired)
    ensures r.Ok? ==>
      && Lookup(r.value, "pattern") == Some(JStr(NormalizeText(args.pattern).value))
      && Lookup(r.value, "path") == StrValue(NormalizeText(args.path))
      && Lookup(r.value, "include") == StrValue(NormalizeText(args.glob))
      && Lookup(r.value, "limit") == (if args.headLimit.Some? then Some(JNum(args.headLimit.value)) else None)
      && "glob" !in r.value && "head_limit" !in r.value && "output_mode" !in r.value
  {
    var outputMode := NormalizeText(args.outputMode);
    if outputMode.Some? && outputMode.value != "files_with_matches" {
      return Err(GrepOutputModeUnsupported);
    }
    if args.offset.Some? && args.offset.value > 0 {
      return Err(GrepOffsetUnsupported);
    }
    var pattern := RequiredNonEmptyText(args.pattern, PatternRequired);
    if pattern.Err? {
      return Err(pattern.error);
    }
    var payload: map<string, Json> := map[];
    payload := payload["pattern" := JStr(pattern.value)];
    var path := NormalizeText(args.path);
    if path.Some? {
      payload := payload["path" := JStr(path.value)];
    }
    var includeGlob := NormalizeText(args.glob);
    if includeGlob.Some? {
      payload := payload["include" := JStr(includeGlob.value)];
    }
    if args.headLimit.Some? {
      payload := payload["limit" := JNum(args.headLimit.value)];
    }
    r := Ok(payload);
  }

  // ---------------------------------------------------------------------------
  // TodoWrite

  datatype TodoEntry = TodoEntry(content: Option<string>, activeForm: Option<string>, status: Option<string>)
  datatype PlanStep = PlanStep(step: string, status: string)

  predicate IsPlanStatus(s: string) {
    s == "pending" || s == "in_progress" || s == "completed"
  }

  /** The step text: `content`, else `activeForm`. */
  function TodoStep(todo: TodoEntry): Option<string> {
    OrElse(NormalizeText(todo.content), NormalizeText(todo.activeForm))
  }

  /** The status: `pending` when absent, lower-cased. */
  function TodoStatus(todo: TodoEntry): string {
    AsciiLowerStr(NormalizeText(todo.status).UnwrapOr("pending"))
  }

  /** The message for a status outside the three plan statuses. */
  function UnsupportedTodoStatus(status: string): string {
    "unsupported todo status `" + status + "`; expected pending|in_progress|completed / 不支持的 todo status `"
    + status + "`，可选值 pending|in_progress|completed"
  }

  /** An entry the plan accepts: it has a step and a plan status. */
  predicate TodoAccepted(todo: TodoEntry) {
    TodoStep(todo).Some? && IsPlanStatus(TodoStatus(todo))
  }

  predicate TodoRefused(todo: TodoEntry) {
    !TodoAccepted(todo)
  }

  /** The error for a refused entry: a missing step first, then an unsupported status. */
  function TodoRefusal(todo: TodoEntry): (e: Option<string>)
    ensures e.None? <==> TodoAccepted(todo)
    ensures TodoStep(todo).None? ==> e == Some(TodoStepRequired)
    ensures TodoStep(todo).Some? && !IsPlanStatus(TodoStatus(todo)) ==>
      e == Some(UnsupportedTodoStatus(TodoStatus(todo)))
  {
    if TodoStep(todo).None? then Some(TodoStepRequired)
    else if !IsPlanStatus(TodoStatus(todo)) then Some(UnsupportedTodoStatus(TodoStatus(todo)))
    else None
  }

  /** The plan step of an accepted entry. */
  function PlanStepOf(todo: TodoEntry): PlanStep
    requires TodoAccepted(todo)
  {
    PlanStep(TodoStep(todo).value, TodoStatus(todo))
  }

  /**
   * `map_todo_write_to_update_plan_payload`: a non-empty list; each entry
   * needs a step and a status among pending, in_progress and completed; the
   * first bad entry's error is returned.
   */
  method MapTodoWriteToUpdatePlan(todos: Option<seq<TodoEntry>>) returns (r: Result<seq<PlanStep>, string>)
    ensures r.Ok? <==> todos.Some? && todos.value != [] && forall i :: 0 <= i < |todos.value| ==> TodoAccepted(todos.value[i])
    ensures todos.None? || todos.value == [] ==> r == Err(TodosRequired)
    ensures r.Ok? ==> |r.value| == |todos.value| && forall i :: 0 <= i < |r.value| ==> r.value[i] == PlanStepOf(todos.value[i])
    ensures todos.Some? ==>
      var k := FirstFailing(todos.value, TodoRefused);
      k < |todos.value| ==> r.Err? && TodoRefusal(todos.value[k]) == Some(r.error)
  {
    if todos.None? || todos.value == [] {
      return Err(TodosRequired);
    }
    var entries := todos.value;
    var plan: seq<PlanStep> := [];
    var i := 0;
    while i < |entries|
      invariant 0 <= i <= |entries| && |plan| == i
      invariant forall j :: 0 <= j < i ==> TodoAccepted(entries[j])
      invariant forall j :: 0 <= j < i ==> plan[j] == PlanStepOf(entries[j])
    {
      var step := TodoStep(entries[i]);
      if !TodoAccepted(entries[i]) {
        assert TodoRefused(entries[i]);
        FirstFailingAt(entries, TodoRefused, i);
      }
      if step.None? {
        return Err(TodoStepRequired);
      }
      var status := TodoStatus(entries[i]);
      if !IsPlanStatus(status) {
        return Err(UnsupportedTodoStatus(status));
      }
      assert TodoAccepted(entries[i]);
      plan := plan + [PlanStepOf(entries[i])];
      i := i + 1;
    }
    r := Ok(plan);
  }
}
