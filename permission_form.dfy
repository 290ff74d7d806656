/**
 * The permission form: `handleToggle`, which copies the rows and flips one cell of the copy,
 * and `editableColumns`, which gives the READ and WRITE columns a clickable renderer.
 */
module PermissionForm {
  import opened Wrappers
  import opened PermissionMatrix

  datatype Field = Read | Write

  /** The column key each toggleable field is shown under. */
  function FieldKey(f: Field): string {
    match f
    case Read => "read"
    case Write => "write"
  }

  /** `row[field]` */
  function Get(row: FeatureRow, f: Field): bool {
    match f
    case Read => row.read
    case Write => row.write
  }

  /** `{ ...row, [field]: !row[field] }` */
  function Flip(row: FeatureRow, f: Field): (r: FeatureRow)
    ensures r.feature == row.feature && r.name == row.name
    ensures Get(r, f) == !Get(row, f)
    ensures forall g :: g != f ==> Get(r, g) == Get(row, g)
  {
    match f
    case Read => row.(read := !row.read)
    case Write => row.(write := !row.write)
  }

  /** The rows `handleToggle(index, field)` hands to `onChange`, as a value: same length,
      only row `index` differs, and in it only `field` is negated. */
  function ToggleCell(rows: seq<FeatureRow>, index: int, f: Field): (r: seq<FeatureRow>)
    requires 0 <= index < |rows|
    ensures |r| == |rows|
    ensures r[index] == Flip(rows[index], f)
    ensures forall j :: 0 <= j < |rows| && j != index ==> r[j] == rows[j]
  {
    rows[index := Flip(rows[index], f)]
  }

  /** Clicking the same cell twice restores the rows. */
  lemma ToggleTwiceRestores(rows: seq<FeatureRow>, index: int, f: Field)
    requires 0 <= index < |rows|
    ensures ToggleCell(ToggleCell(rows, index, f), index, f) == rows
  {
    var once := ToggleCell(rows, index, f);
    assert Flip(Flip(rows[index], f), f) == rows[index];
  }

  /** Clicks on two cells give the same rows in either order. */
  lemma TogglesCommute(rows: seq<FeatureRow>, i: int, f: Field, j: int, g: Field)
    requires 0 <= i < |rows| && 0 <= j < |rows|
    ensures ToggleCell(ToggleCell(rows, i, f), j, g) == ToggleCell(ToggleCell(rows, j, g), i, f)
  {
    if i == j && f != g {
      assert Flip(Flip(rows[i], f), g) == Flip(Flip(rows[i], g), f);
    }
  }

  /** `handleToggle(index, field)`: `[...data]` is a fresh array, so the caller's array is
      left as it was, and the copy differs from it only in the toggled cell. */
  method HandleToggle(data: array<FeatureRow>, index: int, f: Field) returns (newData: array<FeatureRow>)
    requires 0 <= index < data.Length
    ensures fresh(newData)
    ensures newData[..] == ToggleCell(data[..], index, f)
  {
    newData := new FeatureRow[data.Length];
    var k := 0;
    while k < data.Length
      invariant 0 <= k <= data.Length
      invariant forall j :: 0 <= j < k ==> newData[j] == data[j]
    {
      newData[k] := data[k];
      k := k + 1;
    }
    newData[index] := Flip(newData[index], f);
  }

  // ---------------------------------------------------------------------------
  // Columns

  /** The renderers the matrix columns use: the read-only icon cell, or the clickable
      toggle that `editableColumns` installs. */
  datatype Renderer = IconCell(caption: string) | ToggleCellRenderer(field: Field)

  datatype ColumnDef = ColumnDef(key: string, title: string, render: Option<Renderer>)

  /** `featureColumns` */
  const FeatureColumns: seq<ColumnDef> := [
    ColumnDef("name", "Feature", None),
    ColumnDef("read", "READ", Some(IconCell("Read"))),
    ColumnDef("write", "WRITE", Some(IconCell("Write")))
  ]

  /** The field a column key toggles, if any. */
  function FieldOfKey(key: string): (f: Option<Field>)
    ensures f.Some? <==> key == "read" || key == "write"
    ensures f.Some? ==> FieldKey(f.value) == key
  {
    if key == "read" then Some(Read) else if key == "write" then Some(Write) else None
  }

  /** `editableColumns`: READ and WRITE get the toggle renderer for their own field, every
      other column passes through as it was. */
  function EditableColumns(cols: seq<ColumnDef>): (r: seq<ColumnDef>)
    ensures |r| == |cols|
    ensures forall i :: 0 <= i < |cols| && FieldOfKey(cols[i].key).Some? ==>
              r[i] == cols[i].(render := Some(ToggleCellRenderer(FieldOfKey(cols[i].key).value)))
    ensures forall i :: 0 <= i < |cols| && FieldOfKey(cols[i].key).None? ==> r[i] == cols[i]
  {
    seq(|cols|, i requires 0 <= i < |cols| =>
      match FieldOfKey(cols[i].key)
      case Some(f) => cols[i].(render := Some(ToggleCellRenderer(f)))
      case None => cols[i])
  }

  /** What a toggle cell shows: a check mark or a cross. */
  function CellMark(row: FeatureRow, f: Field): string {
    if Get(row, f) then "\U{2713}" else "\U{2717}"
  }

  /** In the form, the READ and WRITE columns toggle their own field, and a click on a cell
      flips that cell's mark and no other. */
  lemma ClickFlipsOnlyThatCell(rows: seq<FeatureRow>, index: int, c: nat, j: int, g: Field)
    requires 0 <= index < |rows| && 0 <= j < |rows|
    requires c < |FeatureColumns|
    requires EditableColumns(FeatureColumns)[c].render.Some? && EditableColumns(FeatureColumns)[c].render.value.ToggleCellRenderer?
    ensures var f := EditableColumns(FeatureColumns)[c].render.value.field;
            && FieldKey(f) == FeatureColumns[c].key
            && (CellMark(ToggleCell(rows, index, f)[j], g) != CellMark(rows[j], g) <==> j == index && g == f)
  {
  }
}
