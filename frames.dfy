/** The part of a pandas DataFrame the application looks at: its columns, its
    rows, `df.empty`, `len(df)` and `df.head(n)`. Cells are kept as the text
    the driver returned; nothing in the core computes with them. */
module Frames {

  type Row = seq<string>

  datatype DataFrame = DataFrame(columns: seq<string>, rows: seq<Row>) {

    /** `df.empty`: true when either axis has length zero. */
    predicate IsEmpty() {
      |columns| == 0 || |rows| == 0
    }

    /** `len(df)`: the number of rows. */
    function Length(): nat {
      |rows|
    }

    /** `df.head(n)`: the same columns and the first `n` rows (all of them when
        there are fewer). */
    function Head(n: nat): (r: DataFrame)
      ensures r.columns == columns
      ensures |r.rows| == if n < |rows| then n else |rows|
      ensures forall i :: 0 <= i < |r.rows| ==> r.rows[i] == rows[i]
    {
      DataFrame(columns, if n < |rows| then rows[..n] else rows)
    }
  }

  /** `pd.DataFrame()`: no columns and no rows. */
  const EmptyFrame := DataFrame([], [])
}
