/**
 * The Claude-style NotebookEdit tool on a Jupyter notebook (nbformat 4):
 * replace, insert or delete one cell of the notebook's `cells` array. A
 * cell is a JSON object; its `source` is stored as a list of lines, each
 * keeping its '\n' terminator.
 */
module NotebookEdit {
  import opened Wrappers
  import opened Text
  import opened Json

  datatype EditMode = Replace | Insert | Delete

  datatype NotebookEditArgs = NotebookEditArgs(
    newSource: string,
    editMode: EditMode,
    cellId: Option<string>,
    cellNumber: Option<nat>,
    cellType: Option<string>)

  datatype NotebookEditResult = NotebookEditResult(cellIndex: Option<nat>, cellCount: nat)

  // ---------------------------------------------------------------------------
  // Keys and messages

  const KeyCellType: string := "cell_type"
  const KeyMetadata: string := "metadata"
  const KeySource: string := "source"
  const KeyOutputs: string := "outputs"
  const KeyExecutionCount: string := "execution_count"
  const KeyId: string := "id"

  const CellsRequired: string :=
    "notebook JSON must contain an array field `cells` / notebook JSON 必须包含数组字段 `cells`"
  const ReplaceRequiresTarget: string :=
    "replace mode requires cell_id or cell_number / replace 模式需要 cell_id 或 cell_number"
  const DeleteRequiresTarget: string :=
    "delete mode requires cell_id or cell_number / delete 模式需要 cell_id 或 cell_number"
  const TargetCellNotObject: string := "target cell must be an object / 目标单元必须是对象"

  const NotFoundZh: string := "` was not found / 未找到 cell_id `"
  const MismatchZh: string := ") / cell_id 与 cell_number 指向的单元不一致（"
  const MismatchEndZh: string := "）"
  const UnsupportedZh: string := "`; expected one of code|markdown|raw / 不支持的 cell_type `"
  const UnsupportedEndZh: string := "`，可选值为 code|markdown|raw"
  const OutOfRangeZh: string := ") / cell 索引 "
  const OutOfRangeMidZh: string := " 越界（当前单元数量: "

  function CellIdNotFound(cellId: string): string {
    "cell_id `" + cellId + NotFoundZh + cellId + "`"
  }

  function CellMismatch(fromId: nat, cellNumber: nat): string {
    var a := NatToString(fromId);
    var b := NatToString(cellNumber);
    "cell_id and cell_number point to different cells (" + a + " vs " + b + MismatchZh + a + " vs " + b
    + MismatchEndZh
  }

  function UnsupportedCellType(cellType: string): string {
    "unsupported cell_type `" + cellType + UnsupportedZh + cellType + UnsupportedEndZh
  }

  function OutOfRange(index: nat, cellCount: nat): string {
    var i := NatToString(index);
    var n := NatToString(cellCount);
    "cell index " + i + " is out of range (cell count: " + n + OutOfRangeZh + i + OutOfRangeMidZh + n
    + MismatchEndZh
  }

  // ---------------------------------------------------------------------------
  // Cell types

  predicate IsSupportedCellType(cellType: string) {
    cellType == "code" || cellType == "markdown" || cellType == "raw"
  }

  /** `normalize_cell_type`: trimmed, blank means absent, and only code, markdown or raw pass. */
  function NormalizeCellType(cellType: Option<string>): (r: Result<Option<string>, string>)
    ensures r == Ok(None) <==> cellType.None? || IsBlank(cellType.value)
    ensures r.Ok? && r.value.Some? ==> r.value.value == Trim(cellType.value) && IsSupportedCellType(r.value.value)
    ensures r.Err? <==> cellType.Some? && !IsBlank(cellType.value) && !IsSupportedCellType(Trim(cellType.value))
    ensures r.Err? ==> r.error == UnsupportedCellType(Trim(cellType.value))
  {
    if cellType.None? then Ok(None)
    else
      var value := Trim(cellType.value);
      if value == [] then Ok(None)
      else if IsSupportedCellType(value) then Ok(Some(value))
      else Err(UnsupportedCellType(value))
  }

  /** Normalising an accepted cell type again gives it back unchanged. */
  lemma NormalizeCellTypeIdempotent(cellType: Option<string>)
    requires NormalizeCellType(cellType).Ok? && NormalizeCellType(cellType).value.Some?
    ensures NormalizeCellType(NormalizeCellType(cellType).value) == NormalizeCellType(cellType)
  {
    TrimIdempotent(cellType.value);
  }

  // ---------------------------------------------------------------------------
  // Source text as a list of lines

  /** A line: non-empty, with no '\n' before its last character. */
  predicate IsLine(piece: string) {
    piece != [] && forall j :: 0 <= j < |piece| - 1 ==> piece[j] != '\n'
  }

  /** The length of the first line of `s`, its '\n' included. */
  function FirstLineLength(s: string): (k: nat)
    requires s != []
    ensures 1 <= k <= |s| && IsLine(s[..k])
    ensures k < |s| ==> s[k - 1] == '\n'
    decreases |s|
  {
    if s[0] == '\n' || |s| == 1 then 1
    else
      var k := 1 + FirstLineLength(s[1..]);
      assert s[..k] == [s[0]] + s[1..][..k - 1];
      k
  }

  /** `split_inclusive('\n')`: the lines of `s`, each with its terminator. */
  function SourceLines(s: string): seq<Json>
    decreases |s|
  {
    if s == [] then []
    else
      var k := FirstLineLength(s);
      [JStr(s[..k])] + SourceLines(s[k..])
  }

  /** `source_to_json`: the array of lines; an empty source gives `[]`. */
  function SourceToJson(source: string): (r: Json)
    ensures r.JArr? && (source == [] <==> r.items == [])
  {
    JArr(SourceLines(source))
  }

  /** The text an array of source lines stands for: its strings, concatenated. */
  function SourceText(items: seq<Json>): string {
    if items == [] then []
    else (if items[0].JStr? then items[0].s else []) + SourceText(items[1..])
  }

  /** Concatenating the stored lines gives the source back. */
  lemma {:induction false} SourceRoundTrip(source: string)
    ensures SourceText(SourceToJson(source).items) == source
    decreases |source|
  {
    if source != [] {
      var k := FirstLineLength(source);
      var rest := SourceLines(source[k..]);
      SourceRoundTrip(source[k..]);
      assert ([JStr(source[..k])] + rest)[1..] == rest;
      assert source[..k] + source[k..] == source;
    }
  }

  /** Every stored piece is a line, and every piece but the last ends in '\n'. */
  lemma {:induction false} SourceLinesShape(source: string)
    ensures forall i :: 0 <= i < |SourceLines(source)| ==>
      SourceLines(source)[i].JStr? && IsLine(SourceLines(source)[i].s)
    ensures forall i :: 0 <= i < |SourceLines(source)| - 1 ==> EndsWith(SourceLines(source)[i].s, "\n")
    decreases |source|
  {
    if source != [] {
      var k := FirstLineLength(source);
      SourceLinesShape(source[k..]);
      var lines := SourceLines(source);
      assert lines == [JStr(source[..k])] + SourceLines(source[k..]);
      if k == |source| {
        assert SourceLines(source[k..]) == [];
      }
    }
  }

  // ---------------------------------------------------------------------------
  // Finding the target cell

  /** `cell.get("id").and_then(as_str)`. */
  function CellId(cell: Json): Option<string> {
    if cell.JObj? && KeyId in cell.fields && cell.fields[KeyId].JStr? then Some(cell.fields[KeyId].s) else None
  }

  /** `find_cell_index_by_id`: the first cell whose id is `cellId`. */
  function FindCellIndexById(cells: seq<Json>, cellId: string): (r: Result<nat, string>)
    ensures r.Ok? ==> r.value < |cells| && CellId(cells[r.value]) == Some(cellId)
    ensures r.Ok? ==> forall j :: 0 <= j < r.value ==> CellId(cells[j]) != Some(cellId)
    ensures r.Err? <==> forall j :: 0 <= j < |cells| ==> CellId(cells[j]) != Some(cellId)
    ensures r.Err? ==> r.error == CellIdNotFound(cellId)
  {
    if cells == [] then Err(CellIdNotFound(cellId))
    else if CellId(cells[0]) == Some(cellId) then Ok(0)
    else
      var rest := FindCellIndexById(cells[1..], cellId);
      if rest.Ok? then Ok(rest.value + 1) else Err(rest.error)
  }

  /** Where an index may point: up to the end for an insert, at a cell otherwise. */
  predicate InBounds(mode: EditMode, index: nat, cellCount: nat) {
    if mode == Insert then index <= cellCount else index < cellCount
  }

  /**
   * `resolve_cell_index`: an id selects its first cell (the slot after it
   * when inserting); a given number must agree with it; an insert with no
   * target goes at the end; the index must be in bounds for the mode.
   */
  function ResolveCellIndex(cells: seq<Json>, cellId: Option<string>, cellNumber: Option<nat>, mode: EditMode)
    : (r: Result<Option<nat>, string>)
    ensures r.Ok? && r.value.Some? ==> InBounds(mode, r.value.value, |cells|)
    ensures cellId.Some? ==>
      var found := FindCellIndexById(cells, cellId.value);
      && (found.Err? ==> r == Err(found.error))
      && (found.Ok? ==>
            var i := if mode == Insert then found.value + 1 else found.value;
            && (r.Ok? <==> cellNumber.None? || cellNumber.value == i)
            && (r.Ok? ==> r.value == Some(i))
            && (r.Err? ==> r.error == CellMismatch(i, cellNumber.value)))
    ensures cellId.None? && cellNumber.Some? ==>
      && (r.Ok? <==> InBounds(mode, cellNumber.value, |cells|))
      && (r.Ok? ==> r.value == cellNumber)
      && (r.Err? ==> r.error == OutOfRange(cellNumber.value, |cells|))
    ensures cellId.None? && cellNumber.None? ==> r == Ok(if mode == Insert then Some(|cells|) else None)
  {
    var found := if cellId.Some? then FindCellIndexById(cells, cellId.value) else Ok(0);
    if found.Err? then Err(found.error)
    else
      var indexFromId: Option<nat> :=
        if cellId.Some? then Some(if mode == Insert then found.value + 1 else found.value) else None;
      if indexFromId.Some? && cellNumber.Some? && indexFromId.value != cellNumber.value then
        Err(CellMismatch(indexFromId.value, cellNumber.value))
      else
        var selected :=
          if indexFromId.Some? then indexFromId
          else if cellNumber.Some? then cellNumber
          else if mode == Insert then Some(|cells|)
          else None;
        if selected.Some? && !InBounds(mode, selected.value, |cells|) then
          Err(OutOfRange(selected.value, |cells|))
        else Ok(selected)
  }

  // ---------------------------------------------------------------------------
  // Cell shapes

  /** The keys `configure_cell_shape` decides about. */
  predicate IsShapeKey(k: string) {
    k == KeyCellType || k == KeyMetadata || k == KeyOutputs || k == KeyExecutionCount
  }

  /**
   * The nbformat 4 shape: a supported `cell_type`, an object `metadata`;
   * a code cell has an `outputs` array and an `execution_count`, other
   * cells have neither.
   */
  predicate WellShaped(cell: map<string, Json>) {
    && KeyCellType in cell && cell[KeyCellType].JStr? && IsSupportedCellType(cell[KeyCellType].s)
    && KeyMetadata in cell && cell[KeyMetadata].JObj?
    && (cell[KeyCellType].s == "code" ==>
          KeyOutputs in cell && cell[KeyOutputs].JArr? && KeyExecutionCount in cell)
    && (cell[KeyCellType].s != "code" ==> KeyOutputs !in cell && KeyExecutionCount !in cell)
  }

  /** Every key other than the shape keys is as it was. */
  ghost predicate SameOtherKeys(before: map<string, Json>, after: map<string, Json>) {
    forall k :: !IsShapeKey(k) ==> (k in after <==> k in before) && (k in after ==> after[k] == before[k])
  }

  /**
   * `configure_cell_shape`: sets `cell_type`, makes `metadata` an object,
   * gives a code cell `outputs` and `execution_count` when missing and
   * removes them from markdown and raw cells. Fields already of the
   * required kind are kept.
   */
  method ConfigureCellShape(cell: map<string, Json>, cellType: string) returns (r: Result<map<string, Json>, string>)
    ensures r.Err? <==> !IsSupportedCellType(cellType)
    ensures r.Err? ==> r.error == UnsupportedCellType(cellType)
    ensures r.Ok? ==> WellShaped(r.value) && r.value[KeyCellType] == JStr(cellType)
    ensures r.Ok? ==> SameOtherKeys(cell, r.value)
    ensures r.Ok? ==>
      r.value[KeyMetadata] == if KeyMetadata in cell && cell[KeyMetadata].JObj? then cell[KeyMetadata] else JObj(map[])
    ensures r.Ok? && cellType == "code" ==>
      r.value[KeyOutputs] == if KeyOutputs in cell && cell[KeyOutputs].JArr? then cell[KeyOutputs] else JArr([])
    ensures r.Ok? && cellType == "code" ==>
      r.value[KeyExecutionCount] == if KeyExecutionCount in cell then cell[KeyExecutionCount] else JNull
    ensures WellShaped(cell) && cell[KeyCellType] == JStr(cellType) ==> r == Ok(cell)
  {
    if !IsSupportedCellType(cellType) {
      return Err(UnsupportedCellType(cellType));
    }
    var m := cell[KeyCellType := JStr(cellType)];
    if !(KeyMetadata in m && m[KeyMetadata].JObj?) {
      m := m[KeyMetadata := JObj(map[])];
    }
    if cellType == "code" {
      if !(KeyOutputs in m && m[KeyOutputs].JArr?) {
        m := m[KeyOutputs := JArr([])];
      }
      if KeyExecutionCount !in m {
        m := m[KeyExecutionCount := JNull];
      }
    } else {
      m := m - {KeyOutputs, KeyExecutionCount};
    }
    if WellShaped(cell) && cell[KeyCellType] == JStr(cellType) {
      assert m == cell;
    }
    return Ok(m);
  }

  /** The type a replaced cell gets: the given one, else its own string type, else code. */
  function ReplacementType(cell: map<string, Json>, cellType: Option<string>): string {
    if cellType.Some? then cellType.value
    else if KeyCellType in cell && cell[KeyCellType].JStr? then cell[KeyCellType].s
    else "code"
  }

  /**
   * `replace_cell`: the cell must be an object; its `source` is replaced and
   * it is reshaped for its type. `updated` is the cell after the call: when
   * the type is unsupported the new source is already in place.
   */
  method ReplaceCell(cell: Json, newSource: string, cellType: Option<string>) returns (updated: Json, r: Result<(), string>)
    ensures !cell.JObj? ==> updated == cell && r == Err(TargetCellNotObject)
    ensures cell.JObj? ==> updated.JObj? && KeySource in updated.fields && updated.fields[KeySource] == SourceToJson(newSource)
    ensures cell.JObj? ==>
      var t := ReplacementType(cell.fields, cellType);
      && (r.Ok? <==> IsSupportedCellType(t))
      && (r.Err? ==> r.error == UnsupportedCellType(t) && updated.fields == cell.fields[KeySource := SourceToJson(newSource)])
      && (r.Ok? ==> WellShaped(updated.fields) && updated.fields[KeyCellType] == JStr(t))
      && (r.Ok? ==> forall k :: !IsShapeKey(k) && k != KeySource ==>
            (k in updated.fields <==> k in cell.fields) && (k in updated.fields ==> updated.fields[k] == cell.fields[k]))
  {
    if !cell.JObj? {
      return cell, Err(TargetCellNotObject);
    }
    var target := ReplacementType(cell.fields, cellType);
    var fields := cell.fields[KeySource := SourceToJson(newSource)];
    var shaped := ConfigureCellShape(fields, target);
    if shaped.Err? {
      return JObj(fields), Err(shaped.error);
    }
    return JObj(shaped.value), Ok(());
  }

  /**
   * `create_cell`: a fresh cell with empty metadata and the given source,
   * shaped for its type; it carries no id.
   */
  method CreateCell(cellType: string, newSource: string) returns (r: Result<Json, string>)
    ensures r.Err? <==> !IsSupportedCellType(cellType)
    ensures r.Err? ==> r.error == UnsupportedCellType(cellType)
    ensures r.Ok? ==> r.value.JObj? && WellShaped(r.value.fields)
    ensures r.Ok? ==> var f := r.value.fields;
      && f[KeyCellType] == JStr(cellType)
      && KeySource in f && f[KeySource] == SourceToJson(newSource)
      && f[KeyMetadata] == JObj(map[])
      && KeyId !in f
      && (cellType == "code" ==> f[KeyOutputs] == JArr([]) && f[KeyExecutionCount] == JNull)
  {
    var cell: map<string, Json> := map[];
    cell := cell[KeyMetadata := JObj(map[])];
    cell := cell[KeySource := SourceToJson(newSource)];
    var shaped := ConfigureCellShape(cell, cellType);
    if shaped.Err? {
      return Err(shaped.error);
    }
    return Ok(JObj(shaped.value));
  }

  // ---------------------------------------------------------------------------
  // The notebook

  /**
   * A notebook document. `cells` is its `cells` array, or None when the
   * document has no array field of that name; the document's other fields
   * are never touched by an edit and are not kept here.
   */
  class Notebook {
    var cells: Option<seq<Json>>

    constructor (cells: Option<seq<Json>>)
      ensures this.cells == cells
    {
      this.cells := cells;
    }

    /**
     * `apply_notebook_edit`. Errors are checked in the source's order: the
     * cell type, the `cells` array, the target index, then the mode's own
     * requirements. Insert adds one cell at the index, delete removes the
     * cell there, replace rewrites it in place; the result reports the
     * index and the new number of cells.
     */
    method ApplyNotebookEdit(args: NotebookEditArgs) returns (r: Result<NotebookEditResult, string>)
      modifies this
      ensures var normalized := NormalizeCellType(args.cellType);
        normalized.Err? ==> r == Err(normalized.error) && cells == old(cells)
      ensures NormalizeCellType(args.cellType).Ok? && old(cells).None? ==>
        r == Err(CellsRequired) && cells == old(cells)
      ensures NormalizeCellType(args.cellType).Ok? && old(cells).Some? ==>
        var target := ResolveCellIndex(old(cells).value, args.cellId, args.cellNumber, args.editMode);
        target.Err? ==> r == Err(target.error) && cells == old(cells)
      ensures r.Ok? ==> old(cells).Some? && cells.Some? && r.value.cellIndex.Some?
      ensures r.Ok? ==>
        var before := old(cells).value;
        var i := r.value.cellIndex.value;
        && ResolveCellIndex(before, args.cellId, args.cellNumber, args.editMode).Ok?
        && r.value.cellCount == |cells.value|
        && (args.editMode == Insert ==>
              && i <= |before| && |cells.value| == |before| + 1
              && cells.value == before[..i] + [cells.value[i]] + before[i..]
              && cells.value[i].JObj? && WellShaped(cells.value[i].fields)
              && KeySource in cells.value[i].fields
              && cells.value[i].fields[KeySource] == SourceToJson(args.newSource)
              && cells.value[i].fields[KeyCellType]
                 == JStr(NormalizeCellType(args.cellType).value.UnwrapOr("code")))
        && (args.editMode == Delete ==>
              i < |before| && cells.value == before[..i] + before[i + 1..])
        && (args.editMode == Replace ==>
              && i < |before| && |cells.value| == |before|
              && cells.value == before[i := cells.value[i]]
              && cells.value[i].JObj? && WellShaped(cells.value[i].fields)
              && KeySource in cells.value[i].fields
              && cells.value[i].fields[KeySource] == SourceToJson(args.newSource))
      ensures (&& args.editMode != Insert && NormalizeCellType(args.cellType).Ok? && old(cells).Some?
               && ResolveCellIndex(old(cells).value, args.cellId, args.cellNumber, args.editMode) == Ok(None)) ==>
        r == Err(if args.editMode == Replace then ReplaceRequiresTarget else DeleteRequiresTarget)
        && cells == old(cells)
      ensures (&& args.editMode == Replace && NormalizeCellType(args.cellType).Ok? && old(cells).Some?
               && ResolveCellIndex(old(cells).value, args.cellId, args.cellNumber, args.editMode).Ok?
               && ResolveCellIndex(old(cells).value, args.cellId, args.cellNumber, args.editMode).value.Some?) ==>
        var before := old(cells).value;
        var i := ResolveCellIndex(before, args.cellId, args.cellNumber, args.editMode).value.value;
        && i < |before|
        && (!before[i].JObj? ==> r == Err(TargetCellNotObject) && cells == old(cells))
        && (before[i].JObj? ==>
              var t := ReplacementType(before[i].fields, NormalizeCellType(args.cellType).value);
              && cells.Some? && |cells.value| == |before| && cells.value == before[i := cells.value[i]]
              && cells.value[i].JObj?
              && (r.Ok? <==> IsSupportedCellType(t))
              && (r.Err? ==>
                    && r.error == UnsupportedCellType(t)
                    && cells.value[i].fields == before[i].fields[KeySource := SourceToJson(args.newSource)])
              && (r.Ok? ==>
                    && r.value == NotebookEditResult(Some(i), |before|)
                    && cells.value[i].fields[KeyCellType] == JStr(t)
                    && forall k :: !IsShapeKey(k) && k != KeySource ==>
                         && (k in cells.value[i].fields <==> k in before[i].fields)
                         && (k in cells.value[i].fields ==> cells.value[i].fields[k] == before[i].fields[k])))
    {
      var normalized := NormalizeCellType(args.cellType);
      if normalized.Err? {
        return Err(normalized.error);
      }
      if cells.None? {
        return Err(CellsRequired);
      }
      var current := cells.value;
      var target := ResolveCellIndex(current, args.cellId, args.cellNumber, args.editMode);
      if target.Err? {
        return Err(target.error);
      }
      match args.editMode {
        case Replace =>
          if target.value.None? {
            return Err(ReplaceRequiresTarget);
          }
          var index := target.value.value;
          var updated, replaced := ReplaceCell(current[index], args.newSource, normalized.value);
          cells := Some(current[index := updated]);
          if !current[index].JObj? {
            assert current[index := updated] == current;
          }
          if replaced.Err? {
            return Err(replaced.error);
          }
          return Ok(NotebookEditResult(Some(index), |current|));
        case Insert =>
          var index := target.value.UnwrapOr(|current|);
          var cellType := normalized.value.UnwrapOr("code");
          assert IsSupportedCellType(cellType);
          var created := CreateCell(cellType, args.newSource);
          cells := Some(current[..index] + [created.value] + current[index..]);
          return Ok(NotebookEditResult(Some(index), |current| + 1));
        case Delete =>
          if target.value.None? {
            return Err(DeleteRequiresTarget);
          }
          var index := target.value.value;
          cells := Some(current[..index] + current[index + 1..]);
          return Ok(NotebookEditResult(Some(index), |current| - 1));
      }
    }
  }
}
