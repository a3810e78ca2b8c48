/**
 * Cells of a pandas frame, as the anomaly detector sees them, and the three
 * Python operations the detector applies to them: `row.get(col)`, `pd.notna`,
 * and `==` (used by `not in [...]` and, with NaN keys, by `merge`).
 */
module Values {
  /**
   * One cell. `VNull` stands for every "missing" value the detector can meet:
   * a NaN cell left by the left join or by an empty spreadsheet cell, and the
   * `None` that `row.get` returns for a column the frame does not have.
   * IEEE floats are not modelled: a float cell is an exact `real`.
   */
  datatype Value = VInt(n: int) | VReal(x: real) | VStr(text: string) | VNull

  /** One row of a frame: column name to cell. */
  type Row = map<string, Value>

  /** The join key every frame is renamed to. */
  const URL_COLUMN := "URL"

  /** `row.get(col)`: a column the row does not have reads as `None`. */
  function Get(row: Row, col: string): Value
  {
    if col in row then row[col] else VNull
  }

  /** `pd.notna(v)`. */
  predicate NotNa(v: Value)
  {
    !v.VNull?
  }

  /** The cell is an `int` or a `float`, i.e. `isinstance(v, (int, float))` on a non-missing cell. */
  predicate IsNumber(v: Value)
  {
    v.VInt? || v.VReal?
  }

  /** The numeric value of a number cell. */
  function Num(v: Value): real
    requires IsNumber(v)
  {
    if v.VInt? then v.n as real else v.x
  }

  /**
   * Python's `a == b` on two cells: an int equals a float of the same value,
   * text equals only text, and a missing value (NaN) equals nothing.
   */
  predicate PyEq(a: Value, b: Value)
  {
    match (a, b)
    case (VInt(m), VInt(n)) => m == n
    case (VInt(m), VReal(y)) => m as real == y
    case (VReal(x), VInt(n)) => x == n as real
    case (VReal(x), VReal(y)) => x == y
    case (VStr(s), VStr(t)) => s == t
    case _ => false
  }

  /** Python's `v in xs` on a list of cells. */
  predicate PyIn(v: Value, xs: seq<Value>)
  {
    exists k :: 0 <= k < |xs| && PyEq(v, xs[k])
  }

  /**
   * When `merge` matches two key cells: as `==`, except that pandas also
   * matches a missing key with a missing key.
   */
  predicate KeyMatch(a: Value, b: Value)
  {
    PyEq(a, b) || (a.VNull? && b.VNull?)
  }
}
