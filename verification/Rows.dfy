/** Evidence rows as dictionaries. */
module Rows {
  import opened Values

  /** A row by field name. */
  type Row = map<string, Value>

  /** A field as Python compares it; a missing field reads as None. */
  function Field(row: Row, f: string): Value {
    if f in row then Canon(row[f]) else Null
  }
}
