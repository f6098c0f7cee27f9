/** The positional schema mapping of the import: each row of the lot sheet
    and each row of the generic-product sheet becomes one row of the unified
    table, by column position only, and the two are concatenated, lot rows
    first (app.py:14-33). */
module Schema {

  /** One cell as pandas holds it: a string, a missing CSV cell (float NaN)
      or Python's None. */
  datatype Value = Text(s: string) | NaN | Null

  /** Where a unified row came from. */
  datatype Origin = Fracionamento | SpexGenerico

  /** The text stored in the `origem` column. */
  function OriginTag(o: Origin): string {
    match o
    case Fracionamento => "FRACIONAMENTO"
    case SpexGenerico => "SPEX/GENERICO"
  }

  /** One row of the unified table `df_total`, before and after cleaning. */
  datatype Entry = Entry(lote: Value, descricao: Value, endereco: Value, origem: Origin)

  /** A sheet as read from CSV: its number of columns and its rows.  Column
      names play no part. */
  datatype Sheet = Sheet(width: nat, rows: seq<seq<Value>>)

  /** A data frame is rectangular: every row has one cell per column. */
  predicate Rectangular(s: Sheet) {
    forall i :: 0 <= i < |s.rows| ==> |s.rows[i]| == s.width
  }

  /** A lot-sheet row: lot, description and address are columns 0, 1 and 2. */
  function MapLotRow(row: seq<Value>): Entry
    requires |row| >= 3
  {
    Entry(row[0], row[1], row[2], Fracionamento)
  }

  /** A product-sheet row: no lot (None); description and address are columns 0 and 1. */
  function MapGenericRow(row: seq<Value>): Entry
    requires |row| >= 2
  {
    Entry(Null, row[0], row[1], SpexGenerico)
  }

  /** `df_lotes_final`: the lot sheet mapped row by row, in order. */
  function LotFrame(rows: seq<seq<Value>>): (r: seq<Entry>)
    requires forall i :: 0 <= i < |rows| ==> |rows[i]| >= 3
    ensures |r| == |rows|
    ensures forall i :: 0 <= i < |rows| ==> r[i] == MapLotRow(rows[i])
  {
    seq(|rows|, i requires 0 <= i < |rows| => MapLotRow(rows[i]))
  }

  /** `df_produtos_final`: the product sheet mapped row by row, in order. */
  function GenericFrame(rows: seq<seq<Value>>): (r: seq<Entry>)
    requires forall i :: 0 <= i < |rows| ==> |rows[i]| >= 2
    ensures |r| == |rows|
    ensures forall i :: 0 <= i < |rows| ==> r[i] == MapGenericRow(rows[i])
  {
    seq(|rows|, i requires 0 <= i < |rows| => MapGenericRow(rows[i]))
  }

  /** `df_total`, before cleaning: all lot rows, then all product rows. */
  function Frame(lots: seq<seq<Value>>, prods: seq<seq<Value>>): (r: seq<Entry>)
    requires forall i :: 0 <= i < |lots| ==> |lots[i]| >= 3
    requires forall i :: 0 <= i < |prods| ==> |prods[i]| >= 2
    ensures |r| == |lots| + |prods|
    ensures forall i :: 0 <= i < |lots| ==> r[i] == MapLotRow(lots[i])
    ensures forall j :: 0 <= j < |prods| ==> r[|lots| + j] == MapGenericRow(prods[j])
  {
    LotFrame(lots) + GenericFrame(prods)
  }
}
