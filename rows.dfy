/**
 * A database row as the `ScanRow` methods see it through pgx: a list of
 * values (which may fail to load) beside the list of column names, and the
 * fold that walks the columns left to right, assigning the field whose name
 * matches the column case-insensitively.
 */
module Rows {
  import opened Wrappers
  import opened Decimal

  /** A float64 column or field; the model moves such values around and does no arithmetic on them. */
  type Float64 = real

  /** A timestamp column or field, kept opaque. */
  type Time = int

  /** One value of a row, with its dynamic Go type. */
  datatype Cell = IntCell(i: int64) | TextCell(s: string) | FloatCell(f: Float64) | TimeCell(t: Time) | NullCell

  /** The error `rows.Values()` reports when the row cannot be decoded. */
  datatype RowError = RowError(reason: string)

  /** `rows.Values()` and `rows.FieldDescriptions()` names. */
  datatype Row = Row(values: Result<seq<Cell>, RowError>, fields: seq<string>)

  /**
   * One character of `strings.ToLower`, as far as comparing the result with
   * an ASCII column name is concerned: ASCII capitals fold to lower case, and
   * so do the two non-ASCII runes whose Go lower case is ASCII (U+0130 to 'i',
   * the Kelvin sign U+212A to 'k').  Every other rune folds, in Go, to a
   * non-ASCII rune or to itself, so leaving it as is changes no comparison.
   */
  function FoldChar(c: char): (r: char)
    ensures 'A' <= c <= 'Z' ==> r as int == c as int + 32
    ensures c == '\U{0130}' ==> r == 'i'
    ensures c == '\U{212A}' ==> r == 'k'
    ensures !('A' <= c <= 'Z') && c != '\U{0130}' && c != '\U{212A}' ==> r == c
    ensures 'a' <= r <= 'z' ==> 'a' <= c <= 'z' || 'A' <= c <= 'Z' || c == '\U{0130}' || c == '\U{212A}'
  {
    if 'A' <= c <= 'Z' then (c as int + 32) as char
    else if c == '\U{0130}' then 'i'
    else if c == '\U{212A}' then 'k'
    else c
  }

  /** `strings.ToLower`, for comparison with lower-case ASCII names. */
  function Lower(s: string): (r: string)
    ensures |r| == |s|
    ensures forall i :: 0 <= i < |s| ==> r[i] == FoldChar(s[i])
  {
    seq(|s|, i requires 0 <= i < |s| => FoldChar(s[i]))
  }

  /** A column key as the Go code spells it: ASCII lower-case letters only. */
  predicate IsLowerKey(key: string) {
    forall i :: 0 <= i < |key| ==> 'a' <= key[i] <= 'z'
  }

  /** Character `c` is one that `strings.ToLower` turns into the lower-case ASCII letter `k`. */
  predicate FoldsTo(c: char, k: char) {
    c == k || c as int == k as int - 32 || (k == 'i' && c == '\U{0130}') || (k == 'k' && c == '\U{212A}')
  }

  /**
   * A name matches a lower-case key, ignoring case, exactly when it has the
   * key's length and each of its characters is the key's letter, its ASCII
   * capital, or one of the two runes Go folds onto 'i' and 'k'.
   */
  lemma LowerMatchesKey(s: string, key: string)
    requires IsLowerKey(key)
    ensures Lower(s) == key <==> |s| == |key| && forall i :: 0 <= i < |s| ==> FoldsTo(s[i], key[i])
  {
  }

  /** Column `j` is named `key`, ignoring case. */
  predicate Names(fields: seq<string>, j: nat, key: string)
    requires j < |fields|
  {
    Lower(fields[j]) == key
  }

  /**
   * The index of the last column among the first `|cells|` that is named
   * `key` (ignoring case) and holds a non-null value.
   */
  function LastSet(fields: seq<string>, cells: seq<Cell>, key: string): (r: Option<nat>)
    requires |cells| <= |fields|
    ensures r.Some? ==> r.value < |cells| && Names(fields, r.value, key) && !cells[r.value].NullCell?
    ensures r.Some? ==> forall j :: r.value < j < |cells| && Names(fields, j, key) ==> cells[j].NullCell?
    ensures r.None? ==> forall j :: 0 <= j < |cells| && Names(fields, j, key) ==> cells[j].NullCell?
    decreases |cells|
  {
    if cells == [] then None
    else if Names(fields, |cells| - 1, key) && !cells[|cells| - 1].NullCell? then Some(|cells| - 1)
    else LastSet(fields, cells[..|cells| - 1], key)
  }

  /**
   * The column loop of every `ScanRow`: `assign` applied to each column in
   * turn, from the first to the last, starting from the receiver's fields.
   */
  function Scan<R>(r: R, fields: seq<string>, cells: seq<Cell>, assign: (R, string, Cell) -> R): R
    requires |cells| <= |fields|
    decreases |cells|
  {
    if cells == [] then r
    else assign(Scan(r, fields, cells[..|cells| - 1], assign), fields[|cells| - 1], cells[|cells| - 1])
  }

  /**
   * The fold, seen through one field: when each column sets the field `get`
   * reads to `put` of its value exactly when the column is named `key` and
   * not null, and leaves it otherwise, the scan leaves that field as the last
   * such column says, or unchanged when there is none.
   */
  lemma {:induction false} ScanField<R, V>(r: R, fields: seq<string>, cells: seq<Cell>, assign: (R, string, Cell) -> R,
                                           key: string, get: R -> V, put: Cell -> V)
    requires |cells| <= |fields|
    requires forall j, x :: 0 <= j < |cells| ==>
      get(assign(x, fields[j], cells[j])) == if Names(fields, j, key) && !cells[j].NullCell? then put(cells[j]) else get(x)
    ensures LastSet(fields, cells, key).None? ==> get(Scan(r, fields, cells, assign)) == get(r)
    ensures LastSet(fields, cells, key).Some? ==>
      get(Scan(r, fields, cells, assign)) == put(cells[LastSet(fields, cells, key).value])
    decreases |cells|
  {
    if cells != [] {
      var init := cells[..|cells| - 1];
      forall j, x | 0 <= j < |init|
        ensures get(assign(x, fields[j], init[j])) == if Names(fields, j, key) && !init[j].NullCell? then put(init[j]) else get(x)
      {
        assert init[j] == cells[j];
      }
      ScanField(r, fields, init, assign, key, get, put);
      var k := |cells| - 1;
      assert get(assign(Scan(r, fields, init, assign), fields[k], cells[k])) ==
        if Names(fields, k, key) && !cells[k].NullCell? then put(cells[k]) else get(Scan(r, fields, init, assign));
    }
  }
}
