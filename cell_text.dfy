/**
 * Text truncation for the PDF table: header titles longer than 31
 * characters are cut to 28 plus "...", and cell values longer than 45
 * characters are cut to 45 plus "..."; a `None` value prints as "" (an
 * empty sheet cell arrives as NaN instead, which is not modelled).
 */
module CellText {
  import opened Records

  const Ellipsis: string := "..."
  const HeaderLimit: nat := 31
  const HeaderKeep: nat := 28
  const CellLimit: nat := 45

  /** The header title as printed: never longer than 31 characters. */
  function HeaderText(h: string): (t: string)
    ensures |t| <= HeaderLimit
    ensures |h| <= HeaderLimit ==> t == h
    ensures |h| > HeaderLimit ==> |t| == HeaderLimit && t[..HeaderKeep] == h[..HeaderKeep] && t[HeaderKeep..] == Ellipsis
  {
    if |h| > HeaderLimit then h[..HeaderKeep] + Ellipsis else h
  }

  /** The cell text as printed: never longer than 48 characters. */
  function RowText(v: Option<string>): (t: string)
    ensures |t| <= CellLimit + |Ellipsis|
    ensures v.None? ==> t == ""
    ensures v.Some? && |v.value| <= CellLimit ==> t == v.value
    ensures v.Some? && |v.value| > CellLimit ==>
              |t| == CellLimit + |Ellipsis| && t[..CellLimit] == v.value[..CellLimit] && t[CellLimit..] == Ellipsis
  {
    var txt := if v.Some? then v.value else "";
    if |txt| > CellLimit then txt[..CellLimit] + Ellipsis else txt
  }

  /** One printed table cell: its width and its text. */
  datatype Cell = Cell(width: int, text: string)

  /** The header line: one cell per (title, width) pair, as far as both lists go. */
  function HeaderCells(headers: seq<string>, widths: seq<int>): (cells: seq<Cell>)
    ensures |cells| == if |headers| <= |widths| then |headers| else |widths|
    ensures forall i :: 0 <= i < |cells| ==> cells[i] == Cell(widths[i], HeaderText(headers[i]))
    ensures forall i :: 0 <= i < |cells| ==> |cells[i].text| <= HeaderLimit
  {
    if headers == [] || widths == [] then []
    else [Cell(widths[0], HeaderText(headers[0]))] + HeaderCells(headers[1..], widths[1..])
  }

  /** A data line: one cell per (value, width) pair, as far as both lists go. */
  function RowCells(values: seq<Option<string>>, widths: seq<int>): (cells: seq<Cell>)
    ensures |cells| == if |values| <= |widths| then |values| else |widths|
    ensures forall i :: 0 <= i < |cells| ==> cells[i] == Cell(widths[i], RowText(values[i]))
    ensures forall i :: 0 <= i < |cells| ==> |cells[i].text| <= CellLimit + |Ellipsis|
  {
    if values == [] || widths == [] then []
    else [Cell(widths[0], RowText(values[0]))] + RowCells(values[1..], widths[1..])
  }
}
