/**
 * The status-line picker: which items it lists, in which order and which
 * of them start enabled; the live preview of the enabled items; and the
 * item list a confirmation produces. Item names and descriptions are
 * translations and are left to the interface.
 */
module StatusLineSetup {
  import opened Wrappers
  import opened Text

  /** The pieces of information the status line can show, in declaration order. */
  datatype Item =
    | ModelName | ModelWithReasoning | CurrentDir | ProjectRoot | GitBranch
    | ContextRemaining | ContextUsed | FiveHourLimit | WeeklyLimit | CodexVersion
    | ContextWindowSize | UsedTokens | TotalInputTokens | TotalOutputTokens | SessionId

  /** Every item, in the order the enum iterates them. */
  const AllItems: seq<Item> := [
    ModelName, ModelWithReasoning, CurrentDir, ProjectRoot, GitBranch,
    ContextRemaining, ContextUsed, FiveHourLimit, WeeklyLimit, CodexVersion,
    ContextWindowSize, UsedTokens, TotalInputTokens, TotalOutputTokens, SessionId]

  /** The position of an item in the enum. */
  function Ordinal(item: Item): (r: nat)
    ensures r < |AllItems|
  {
    match item
    case ModelName => 0
    case ModelWithReasoning => 1
    case CurrentDir => 2
    case ProjectRoot => 3
    case GitBranch => 4
    case ContextRemaining => 5
    case ContextUsed => 6
    case FiveHourLimit => 7
    case WeeklyLimit => 8
    case CodexVersion => 9
    case ContextWindowSize => 10
    case UsedTokens => 11
    case TotalInputTokens => 12
    case TotalOutputTokens => 13
    case SessionId => 14
  }

  /** Every item sits in `AllItems` at its ordinal. */
  lemma OrdinalIndex(item: Item)
    ensures AllItems[Ordinal(item)] == item
  {
  }

  /** The item at position `n` has ordinal `n`. */
  lemma IndexOrdinal(n: nat)
    requires n < |AllItems|
    ensures Ordinal(AllItems[n]) == n
  {
  }

  /** The configuration id of an item: its name in kebab case. */
  function ItemId(item: Item): string {
    match item
    case ModelName => "model-name"
    case ModelWithReasoning => "model-with-reasoning"
    case CurrentDir => "current-dir"
    case ProjectRoot => "project-root"
    case GitBranch => "git-branch"
    case ContextRemaining => "context-remaining"
    case ContextUsed => "context-used"
    case FiveHourLimit => "five-hour-limit"
    case WeeklyLimit => "weekly-limit"
    case CodexVersion => "codex-version"
    case ContextWindowSize => "context-window-size"
    case UsedTokens => "used-tokens"
    case TotalInputTokens => "total-input-tokens"
    case TotalOutputTokens => "total-output-tokens"
    case SessionId => "session-id"
  }

  /** The first of `items` whose id is exactly `s`. */
  function FindItem(items: seq<Item>, s: string): (r: Option<Item>)
    ensures r.Some? ==> ItemId(r.value) == s
  {
    if items == [] then None
    else if ItemId(items[0]) == s then Some(items[0])
    else FindItem(items[1..], s)
  }

  lemma {:induction false} FindItemFinds(items: seq<Item>, item: Item)
    requires item in items
    ensures FindItem(items, ItemId(item)).Some?
  {
    if ItemId(items[0]) != ItemId(item) {
      assert item in items[1..];
      FindItemFinds(items[1..], item);
    }
  }

  /** `str::parse::<StatusLineItem>`: the item whose id is exactly `s`, if any. */
  function ParseItem(s: string): (r: Option<Item>)
    ensures r.Some? ==> ItemId(r.value) == s
  {
    FindItem(AllItems, s)
  }

  /** Distinct items have distinct ids. */
  lemma ItemIdInjective(a: Item, b: Item)
    ensures ItemId(a) == ItemId(b) ==> a == b
  {
    if ItemId(a) == ItemId(b) {
      assert |ItemId(a)| == |ItemId(b)| && ItemId(a)[0] == ItemId(b)[0];
    }
  }

  /** Every item's id parses back to that item. */
  lemma ParseItemId(item: Item)
    ensures ParseItem(ItemId(item)) == Some(item)
  {
    FindItemFinds(AllItems, item);
    var r := ParseItem(ItemId(item));
    ItemIdInjective(r.value, item);
  }

  /** A picker row: the item's id and whether it is switched on. */
  datatype SelectItem = SelectItem(id: string, enabled: bool)

  function Rows(items: seq<Item>, enabled: bool): (r: seq<SelectItem>)
    ensures |r| == |items|
    ensures forall k :: 0 <= k < |r| ==> r[k] == SelectItem(ItemId(items[k]), enabled)
  {
    seq(|items|, k requires 0 <= k < |items| => SelectItem(ItemId(items[k]), enabled))
  }

  function RowIds(rows: seq<SelectItem>): (r: seq<string>)
    ensures |r| == |rows| && forall k :: 0 <= k < |rows| ==> r[k] == rows[k].id
  {
    seq(|rows|, k requires 0 <= k < |rows| => rows[k].id)
  }

  predicate DistinctItems(items: seq<Item>) {
    forall p, q :: 0 <= p < q < |items| ==> items[p] != items[q]
  }

  // ---------------------------------------------------------------------------
  // Initial rows

  /** The configured ids that name an item, each item kept at its first mention. */
  function Chosen(ids: seq<string>): seq<Item>
    decreases |ids|
  {
    if ids == [] then []
    else
      var prev := Chosen(ids[..|ids| - 1]);
      match ParseItem(ids[|ids| - 1])
      case Some(item) => if item in prev then prev else prev + [item]
      case None => prev
  }

  /** The items of `all` not already chosen, in their order in `all`. */
  function Rest(all: seq<Item>, chosen: seq<Item>): seq<Item>
    decreases |all|
  {
    if all == [] then []
    else
      var last := all[|all| - 1];
      Rest(all[..|all| - 1], chosen) + (if last in chosen then [] else [last])
  }

  function ChosenOf(configured: Option<seq<string>>): seq<Item> {
    if configured.Some? then Chosen(configured.value) else []
  }

  /** The chosen items switched on, then every other item switched off. */
  function RowsFor(chosen: seq<Item>): seq<SelectItem> {
    Rows(chosen, true) + Rows(Rest(AllItems, chosen), false)
  }

  /** The rows the picker opens with. */
  function SetupRows(configured: Option<seq<string>>): seq<SelectItem> {
    RowsFor(ChosenOf(configured))
  }

  /** No item is chosen twice. */
  lemma {:induction false} ChosenDistinct(ids: seq<string>)
    ensures DistinctItems(Chosen(ids))
    decreases |ids|
  {
    if ids != [] {
      ChosenDistinct(ids[..|ids| - 1]);
    }
  }

  /** An item is chosen exactly when some configured id names it. */
  lemma {:induction false} ChosenMember(ids: seq<string>, item: Item)
    ensures item in Chosen(ids) <==> exists k :: 0 <= k < |ids| && ParseItem(ids[k]) == Some(item)
    decreases |ids|
  {
    if ids != [] {
      var front := ids[..|ids| - 1];
      ChosenMember(front, item);
      if item in Chosen(ids) && item !in Chosen(front) {
        assert ParseItem(ids[|ids| - 1]) == Some(item);
      }
      if exists k :: 0 <= k < |ids| && ParseItem(ids[k]) == Some(item) {
        var k :| 0 <= k < |ids| && ParseItem(ids[k]) == Some(item);
        if k < |ids| - 1 {
          assert front[k] == ids[k];
        }
      }
    }
  }

  /** Ids that all parse and never repeat come out as their items, in the same order. */
  lemma {:induction false} ChosenKeepsOrder(ids: seq<string>)
    requires forall k :: 0 <= k < |ids| ==> ParseItem(ids[k]).Some?
    requires forall p, q :: 0 <= p < q < |ids| ==> ids[p] != ids[q]
    ensures |Chosen(ids)| == |ids|
    ensures forall k :: 0 <= k < |ids| ==> ItemId(Chosen(ids)[k]) == ids[k]
    decreases |ids|
  {
    if ids != [] {
      var front := ids[..|ids| - 1];
      ChosenKeepsOrder(front);
    }
  }

  lemma {:induction false} RestMembers(all: seq<Item>, chosen: seq<Item>)
    ensures forall item :: item in Rest(all, chosen) <==> item in all && item !in chosen
    ensures forall k :: 0 <= k < |Rest(all, chosen)| ==> Rest(all, chosen)[k] in all
    decreases |all|
  {
    if all != [] {
      RestMembers(all[..|all| - 1], chosen);
      assert all == all[..|all| - 1] + [all[|all| - 1]];
    }
  }

  /** The rest keeps the order of `AllItems[..n]`: ordinals strictly increase and stay below `n`. */
  lemma {:induction false} RestInEnumOrder(n: nat, chosen: seq<Item>)
    requires n <= |AllItems|
    ensures forall k :: 0 <= k < |Rest(AllItems[..n], chosen)| ==> Ordinal(Rest(AllItems[..n], chosen)[k]) < n
    ensures forall p, q :: 0 <= p < q < |Rest(AllItems[..n], chosen)| ==>
      Ordinal(Rest(AllItems[..n], chosen)[p]) < Ordinal(Rest(AllItems[..n], chosen)[q])
  {
    if n > 0 {
      assert AllItems[..n][..n - 1] == AllItems[..n - 1];
      RestInEnumOrder(n - 1, chosen);
      IndexOrdinal(n - 1);
    }
  }

  lemma {:induction false} RestContains(all: seq<Item>, chosen: seq<Item>, item: Item)
    requires item in all && item !in chosen
    ensures item in Rest(all, chosen)
    decreases |all|
  {
    if all[|all| - 1] != item {
      assert all == all[..|all| - 1] + [all[|all| - 1]];
      RestContains(all[..|all| - 1], chosen, item);
    }
  }

  /** Every item has a row: a chosen one among the first rows, any other after them. */
  lemma RowsForCover(chosen: seq<Item>, item: Item)
    ensures ItemId(item) in RowIds(RowsFor(chosen))
  {
    var rest := Rest(AllItems, chosen);
    var rows := RowsFor(chosen);
    if item in chosen {
      var k :| 0 <= k < |chosen| && chosen[k] == item;
      assert rows[k] == Rows(chosen, true)[k];
      assert RowIds(rows)[k] == ItemId(item);
    } else {
      OrdinalIndex(item);
      RestContains(AllItems, chosen, item);
      var k :| 0 <= k < |rest| && rest[k] == item;
      assert rows[|chosen| + k] == Rows(rest, false)[k];
      assert RowIds(rows)[|chosen| + k] == ItemId(item);
    }
  }

  /** Two different rows carry different ids when no item is chosen twice. */
  lemma RowsForPairDistinct(chosen: seq<Item>, p: nat, q: nat)
    requires DistinctItems(chosen)
    requires p < q < |RowsFor(chosen)|
    ensures RowsFor(chosen)[p].id != RowsFor(chosen)[q].id
  {
    var rest := Rest(AllItems, chosen);
    var rows := RowsFor(chosen);
    var a := if p < |chosen| then chosen[p] else rest[p - |chosen|];
    var b := if q < |chosen| then chosen[q] else rest[q - |chosen|];
    assert rows[p].id == ItemId(a) && rows[q].id == ItemId(b);
    ItemIdInjective(a, b);
    if q < |chosen| {
    } else if p < |chosen| {
      RestMembers(AllItems, chosen);
      assert b in rest;
    } else {
      RestInEnumOrder(|AllItems|, chosen);
      assert AllItems[..|AllItems|] == AllItems;
      assert Ordinal(a) < Ordinal(b);
    }
  }

  /**
   * The picker opens with the configured items first and switched on, then
   * the others switched off in enum order; each item has exactly one row.
   */
  lemma SetupRowsEachItemOnce(configured: Option<seq<string>>)
    ensures forall k :: 0 <= k < |SetupRows(configured)| ==>
      (SetupRows(configured)[k].enabled <==> k < |ChosenOf(configured)|)
    ensures forall item :: ItemId(item) in RowIds(SetupRows(configured))
    ensures forall p, q :: 0 <= p < q < |SetupRows(configured)| ==> SetupRows(configured)[p].id != SetupRows(configured)[q].id
  {
    var chosen := ChosenOf(configured);
    if configured.Some? {
      ChosenDistinct(configured.value);
    }
    forall item
      ensures ItemId(item) in RowIds(RowsFor(chosen))
    {
      RowsForCover(chosen, item);
    }
    forall p, q | 0 <= p < q < |RowsFor(chosen)|
      ensures RowsFor(chosen)[p].id != RowsFor(chosen)[q].id
    {
      RowsForPairDistinct(chosen, p, q);
    }
  }

  /** The ids of some items. */
  function IdSet(items: seq<Item>): set<string> {
    set item | item in items :: ItemId(item)
  }

  lemma RowsSnoc(items: seq<Item>, item: Item, enabled: bool)
    ensures Rows(items + [item], enabled) == Rows(items, enabled) + [SelectItem(ItemId(item), enabled)]
  {
  }

  lemma IdSetMember(items: seq<Item>, item: Item)
    ensures ItemId(item) in IdSet(items) <==> item in items
  {
    if ItemId(item) in IdSet(items) {
      var x :| x in items && ItemId(x) == ItemId(item);
      ItemIdInjective(x, item);
    }
  }

  lemma IdSetSnoc(items: seq<Item>, item: Item)
    ensures IdSet(items + [item]) == IdSet(items) + {ItemId(item)}
  {
  }

  lemma ChosenStep(ids: seq<string>, i: nat)
    requires i < |ids|
    ensures Chosen(ids[..i + 1]) == match ParseItem(ids[i])
      case Some(item) => if item in Chosen(ids[..i]) then Chosen(ids[..i]) else Chosen(ids[..i]) + [item]
      case None => Chosen(ids[..i])
  {
    assert ids[..i + 1][..i] == ids[..i];
  }

  lemma RestStep(chosen: seq<Item>, j: nat)
    requires j < |AllItems|
    ensures Rest(AllItems[..j + 1], chosen) ==
      Rest(AllItems[..j], chosen) + (if AllItems[j] in chosen then [] else [AllItems[j]])
  {
    assert AllItems[..j + 1][..j] == AllItems[..j];
  }

  /** `StatusLineSetupView::new`, building the rows the way the picker is filled. */
  method NewRows(configured: Option<seq<string>>) returns (items: seq<SelectItem>)
    ensures items == SetupRows(configured)
  {
    var usedIds: set<string> := {};
    items := [];
    ghost var chosen: seq<Item> := [];
    if configured.Some? {
      var ids := configured.value;
      var i := 0;
      while i < |ids|
        invariant 0 <= i <= |ids|
        invariant chosen == Chosen(ids[..i])
        invariant items == Rows(chosen, true)
        invariant usedIds == IdSet(chosen)
      {
        ChosenStep(ids, i);
        var parsed := ParseItem(ids[i]);
        if parsed.Some? {
          var item := parsed.value;
          var itemId := ItemId(item);
          IdSetMember(chosen, item);
          if itemId !in usedIds {
            IdSetSnoc(chosen, item);
            RowsSnoc(chosen, item, true);
            usedIds := usedIds + {itemId};
            items := items + [SelectItem(itemId, true)];
            chosen := chosen + [item];
          }
        }
        i := i + 1;
      }
      assert ids[..|ids|] == ids;
    }
    assert chosen == ChosenOf(configured);
    var j := 0;
    while j < |AllItems|
      invariant 0 <= j <= |AllItems|
      invariant items == Rows(chosen, true) + Rows(Rest(AllItems[..j], chosen), false)
    {
      RestStep(chosen, j);
      var item := AllItems[j];
      var itemId := ItemId(item);
      IdSetMember(chosen, item);
      if itemId !in usedIds {
        RowsSnoc(Rest(AllItems[..j], chosen), item, false);
        items := items + [SelectItem(itemId, false)];
      }
      j := j + 1;
    }
    assert AllItems[..|AllItems|] == AllItems;
  }

  // ---------------------------------------------------------------------------
  // Preview

  /** The sample texts that depend on the interface language. */
  datatype LocalizedSamples = LocalizedSamples(
    contextRemaining: string, contextUsed: string, weeklyLimit: string, contextWindowSize: string,
    usedTokens: string, totalInputTokens: string, totalOutputTokens: string)

  /** The placeholder an item shows in the preview. */
  function Sample(item: Item, localized: LocalizedSamples): string {
    match item
    case ModelName => "gpt-5.2-codex"
    case ModelWithReasoning => "gpt-5.2-codex medium"
    case CurrentDir => "~/project/path"
    case ProjectRoot => "~/project"
    case GitBranch => "feat/awesome-feature"
    case ContextRemaining => localized.contextRemaining
    case ContextUsed => localized.contextUsed
    case FiveHourLimit => "5h 100%"
    case WeeklyLimit => localized.weeklyLimit
    case CodexVersion => "v0.93.0"
    case ContextWindowSize => localized.contextWindowSize
    case UsedTokens => localized.usedTokens
    case TotalInputTokens => localized.totalInputTokens
    case TotalOutputTokens => localized.totalOutputTokens
    case SessionId => "019c19bd-ceb6-73b0-adc8-8ec0397b85cf"
  }

  predicate SamplesNonEmpty(localized: LocalizedSamples) {
    localized.contextRemaining != [] && localized.contextUsed != [] && localized.weeklyLimit != []
    && localized.contextWindowSize != [] && localized.usedTokens != [] && localized.totalInputTokens != []
    && localized.totalOutputTokens != []
  }

  /** The samples of the enabled rows whose id names an item, in row order. */
  function PreviewParts(rows: seq<SelectItem>, localized: LocalizedSamples): (r: seq<string>)
    ensures |r| <= |rows|
  {
    if rows == [] then []
    else
      var tail := PreviewParts(rows[1..], localized);
      if rows[0].enabled && ParseItem(rows[0].id).Some? then [Sample(ParseItem(rows[0].id).value, localized)] + tail
      else tail
  }

  /** There are no parts exactly when no enabled row names an item; each such row contributes its sample. */
  lemma {:induction false} PreviewPartsSpec(rows: seq<SelectItem>, localized: LocalizedSamples)
    ensures forall p :: p in PreviewParts(rows, localized) ==> exists item :: p == Sample(item, localized)
    ensures PreviewParts(rows, localized) == [] <==>
      forall k :: 0 <= k < |rows| ==> !rows[k].enabled || ParseItem(rows[k].id).None?
    ensures forall k :: 0 <= k < |rows| && rows[k].enabled && ParseItem(rows[k].id).Some? ==>
      Sample(ParseItem(rows[k].id).value, localized) in PreviewParts(rows, localized)
  {
    if rows != [] {
      PreviewPartsSpec(rows[1..], localized);
      assert forall k :: 1 <= k < |rows| ==> rows[k] == rows[1..][k - 1];
      if rows[0].enabled && ParseItem(rows[0].id).Some? {
        var item := ParseItem(rows[0].id).value;
        assert PreviewParts(rows, localized) == [Sample(item, localized)] + PreviewParts(rows[1..], localized);
      }
    }
  }

  /** The separator between preview samples: a middle dot with a space on each side. */
  const PreviewSeparator: string := " \U{00B7} "

  /** The separator as the source spells it: the middle dot's UTF-8 bytes read back as Latin-1. */
  const PreviewSeparatorAsWritten: string := " \U{00C2}\U{00B7} "

  function PreviewWith(rows: seq<SelectItem>, localized: LocalizedSamples, separator: string): Option<string> {
    var joined := Join(PreviewParts(rows, localized), separator);
    if joined == [] then None else Some(joined)
  }

  /** The preview line: the enabled samples joined by a middle dot, or nothing when it is empty. */
  function Preview(rows: seq<SelectItem>, localized: LocalizedSamples): Option<string> {
    PreviewWith(rows, localized, PreviewSeparator)
  }

  /** The preview exactly as the source builds it. */
  function PreviewAsWritten(rows: seq<SelectItem>, localized: LocalizedSamples): Option<string> {
    PreviewWith(rows, localized, PreviewSeparatorAsWritten)
  }

  /** Joining non-empty parts is empty exactly when there are no parts. */
  lemma JoinEmpty(parts: seq<string>, separator: string)
    requires forall p :: p in parts ==> p != []
    ensures Join(parts, separator) == [] <==> parts == []
  {
    if |parts| > 1 {
      assert parts[0] in parts;
      assert |Join(parts, separator)| >= |parts[0] + separator|;
    } else if |parts| == 1 {
      assert parts[0] in parts;
    }
  }

  lemma SampleNonEmpty(item: Item, localized: LocalizedSamples)
    requires SamplesNonEmpty(localized)
    ensures Sample(item, localized) != []
  {
  }

  /**
   * With non-empty samples, there is no preview exactly when no enabled row
   * names an item, and otherwise the preview shows every enabled item's sample.
   */
  lemma PreviewShowsEnabled(rows: seq<SelectItem>, localized: LocalizedSamples)
    requires SamplesNonEmpty(localized)
    ensures Preview(rows, localized).None? <==>
      forall k :: 0 <= k < |rows| ==> !rows[k].enabled || ParseItem(rows[k].id).None?
    ensures forall k :: 0 <= k < |rows| && rows[k].enabled && ParseItem(rows[k].id).Some? ==>
      Preview(rows, localized).Some? && Contains(Preview(rows, localized).value, Sample(ParseItem(rows[k].id).value, localized))
  {
    var parts := PreviewParts(rows, localized);
    PreviewPartsSpec(rows, localized);
    forall p | p in parts
      ensures p != []
    {
      var item :| p == Sample(item, localized);
      SampleNonEmpty(item, localized);
    }
    JoinEmpty(parts, PreviewSeparator);
    forall k | 0 <= k < |rows| && rows[k].enabled && ParseItem(rows[k].id).Some?
      ensures Contains(Join(parts, PreviewSeparator), Sample(ParseItem(rows[k].id).value, localized))
    {
      var i :| 0 <= i < |parts| && parts[i] == Sample(ParseItem(rows[k].id).value, localized);
      JoinContainsPart(parts, PreviewSeparator, i);
    }
  }

  /** Every character of a joined text comes from a part or from the separator. */
  lemma {:induction false} JoinChars(parts: seq<string>, separator: string, c: char)
    requires c in Join(parts, separator)
    ensures c in separator || exists p :: p in parts && c in p
  {
    if |parts| > 1 {
      var rest := Join(parts[1..], separator);
      assert Join(parts, separator) == parts[0] + separator + rest;
      if c in rest {
        JoinChars(parts[1..], separator, c);
        if !(c in separator) {
          var p :| p in parts[1..] && c in p;
          assert p in parts;
        }
      } else if !(c in separator) {
        assert c in parts[0] && parts[0] in parts;
      }
    } else if |parts| == 1 {
      assert parts[0] in parts;
    }
  }

  /** The preview holds only sample text, spaces and middle dots. */
  lemma PreviewCharacters(rows: seq<SelectItem>, localized: LocalizedSamples, c: char)
    requires Preview(rows, localized).Some? && c in Preview(rows, localized).value
    ensures c == ' ' || c == '\U{00B7}' || exists item :: c in Sample(item, localized)
  {
    var parts := PreviewParts(rows, localized);
    PreviewPartsSpec(rows, localized);
    JoinChars(parts, PreviewSeparator, c);
    if !(c in PreviewSeparator) {
      var p :| p in parts && c in p;
      var item :| p == Sample(item, localized);
    }
  }

  lemma OneRowParts(row: SelectItem, rows: seq<SelectItem>, item: Item, localized: LocalizedSamples)
    requires row == SelectItem(ItemId(item), true)
    ensures PreviewParts([row] + rows, localized) == [Sample(item, localized)] + PreviewParts(rows, localized)
  {
    ParseItemId(item);
    assert ([row] + rows)[0] == row && ([row] + rows)[1..] == rows;
  }

  lemma TwoRowParts(localized: LocalizedSamples)
    ensures PreviewParts([SelectItem("model-name", true), SelectItem("git-branch", true)], localized)
      == ["gpt-5.2-codex", "feat/awesome-feature"]
  {
    var first := SelectItem("model-name", true);
    var second := SelectItem("git-branch", true);
    OneRowParts(second, [], GitBranch, localized);
    assert [second] + [] == [second];
    OneRowParts(first, [second], ModelName, localized);
    assert [first] + [second] == [first, second];
  }

  /** Joining two strings puts the separator between them. */
  lemma JoinTwo(a: string, b: string, separator: string)
    ensures Join([a, b], separator) == a + separator + b
  {
    assert [a, b][1..] == [b];
  }

  /** The two separators differ only in the stray `Â`, which the corrected one lacks. */
  lemma SeparatorStrayCharacter()
    ensures PreviewSeparatorAsWritten == [' ', '\U{00C2}'] + PreviewSeparator[1..]
    ensures '\U{00C2}' !in PreviewSeparator
  {
  }

  /** As written, two enabled items preview with a stray `Â` that neither sample contains. */
  lemma PreviewAsWrittenStrayCharacter(localized: LocalizedSamples)
    ensures var rows := [SelectItem("model-name", true), SelectItem("git-branch", true)];
      PreviewAsWritten(rows, localized) == Some(Sample(ModelName, localized) + PreviewSeparatorAsWritten + Sample(GitBranch, localized))
      && Preview(rows, localized) == Some(Sample(ModelName, localized) + PreviewSeparator + Sample(GitBranch, localized))
      && '\U{00C2}' in PreviewAsWritten(rows, localized).value
      && '\U{00C2}' !in Sample(ModelName, localized) && '\U{00C2}' !in Sample(GitBranch, localized)
  {
    TwoRowParts(localized);
    var a, b := Sample(ModelName, localized), Sample(GitBranch, localized);
    JoinTwo(a, b, PreviewSeparatorAsWritten);
    JoinTwo(a, b, PreviewSeparator);
    assert (a + PreviewSeparatorAsWritten + b)[|a| + 1] == '\U{00C2}';
  }

  // ---------------------------------------------------------------------------
  // Confirmation

  /** The items a confirmation sends: all of them when every id parses, otherwise none. */
  function ConfirmItems(ids: seq<string>): (r: seq<Item>)
    ensures (forall k :: 0 <= k < |ids| ==> ParseItem(ids[k]).Some?) ==>
      |r| == |ids| && forall k :: 0 <= k < |ids| ==> ItemId(r[k]) == ids[k]
    ensures (exists k :: 0 <= k < |ids| && ParseItem(ids[k]).None?) ==> r == []
  {
    if ids == [] then []
    else
      var tail := ConfirmItems(ids[1..]);
      assert forall k :: 1 <= k < |ids| ==> ids[k] == ids[1..][k - 1];
      match ParseItem(ids[0])
      case Some(item) =>
        if (exists k :: 0 <= k < |ids[1..]| && ParseItem(ids[1..][k]).None?) then [] else [item] + tail
      case None => []
  }

  function IdsOf(items: seq<Item>): (r: seq<string>)
    ensures |r| == |items| && forall k :: 0 <= k < |items| ==> r[k] == ItemId(items[k])
  {
    seq(|items|, k requires 0 <= k < |items| => ItemId(items[k]))
  }

  /** Confirming the ids of some items gives those items back. */
  lemma ConfirmRoundTrip(items: seq<Item>)
    ensures ConfirmItems(IdsOf(items)) == items
  {
    var ids := IdsOf(items);
    forall k | 0 <= k < |ids|
      ensures ParseItem(ids[k]).Some?
    {
      ParseItemId(items[k]);
    }
    var r := ConfirmItems(ids);
    forall k | 0 <= k < |items|
      ensures r[k] == items[k]
    {
      ItemIdInjective(r[k], items[k]);
    }
  }
}
