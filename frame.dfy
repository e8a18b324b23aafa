/**
 * The part of a one-row pandas DataFrame that app/app.py relies on: columns kept
 * in insertion order, `df[col] = v` that overwrites or appends a column, and
 * `df[names]` that selects and reorders columns or raises KeyError.
 */
module Frame {
  import opened Wrappers

  /** A single-row table: its column names in order and the value under each. */
  datatype Row = Row(columns: seq<string>, cells: map<string, real>)

  /** Why a column selection failed: the requested names the row lacks (a KeyError in pandas). */
  datatype SelectError = MissingColumns(names: set<string>)

  /** Column names are distinct and are exactly the keys that hold a value. */
  ghost predicate WellFormed(r: Row) {
    && (forall i, j :: 0 <= i < j < |r.columns| ==> r.columns[i] != r.columns[j])
    && (forall c :: c in r.cells <==> c in r.columns)
  }

  /**
   * `df[col] = v`: an existing column keeps its position and takes the new value;
   * a new column is appended after the existing ones.
   */
  function WithColumn(r: Row, col: string, v: real): (r': Row)
    requires WellFormed(r)
    ensures WellFormed(r')
    ensures col in r'.cells && r'.cells[col] == v
    ensures forall c :: c in r.cells && c != col ==> c in r'.cells && r'.cells[c] == r.cells[c]
    ensures r'.cells.Keys == r.cells.Keys + {col}
    ensures r.columns <= r'.columns
  {
    if col in r.columns then Row(r.columns, r.cells[col := v])
    else Row(r.columns + [col], r.cells[col := v])
  }

  /** The row after `for col in cols: df[col] = 0`, one assignment per name, in order. */
  function ZeroFilled(r: Row, cols: seq<string>): (r': Row)
    requires WellFormed(r)
    ensures WellFormed(r')
  {
    if cols == [] then r
    else WithColumn(ZeroFilled(r, cols[..|cols| - 1]), cols[|cols| - 1], 0.0)
  }

  /**
   * What zero-filling `cols` into `r` must give: every named column holds 0, every
   * other column keeps its value, no column beyond the named ones is added, and
   * the existing columns stay first, in their old order.
   */
  ghost predicate ZeroFillOf(r: Row, cols: seq<string>, r': Row) {
    && (forall c :: c in cols ==> c in r'.cells && r'.cells[c] == 0.0)
    && (forall c :: c in r.cells && c !in cols ==> c in r'.cells && r'.cells[c] == r.cells[c])
    && (forall c :: c in r'.cells ==> c in r.cells || c in cols)
    && r.columns <= r'.columns
  }

  /** The zero-filled row meets that description. */
  lemma {:induction false} ZeroFilledSpec(r: Row, cols: seq<string>)
    requires WellFormed(r)
    ensures ZeroFillOf(r, cols, ZeroFilled(r, cols))
  {
    if cols != [] {
      var init, last := cols[..|cols| - 1], cols[|cols| - 1];
      ZeroFilledSpec(r, init);
      assert forall c :: c in cols <==> c in init || c == last;
    }
  }

  /** The names of `names` that the row has no column for. */
  function Missing(r: Row, names: seq<string>): set<string> {
    set c | c in names && c !in r.cells
  }

  /**
   * `df[names]`: the row's values under `names`, in the order of `names`, or
   * MissingColumns listing every requested name the row lacks. No value is
   * invented for an absent column and columns not named are dropped.
   */
  function Select(r: Row, names: seq<string>): (res: Result<seq<real>, SelectError>)
    ensures res.Ok? <==> forall c :: c in names ==> c in r.cells
    ensures res.Err? ==> res.error.names == Missing(r, names) && res.error.names != {}
    ensures res.Ok? ==> |res.value| == |names|
    ensures res.Ok? ==> forall i :: 0 <= i < |names| ==> res.value[i] == r.cells[names[i]]
  {
    if Missing(r, names) != {} then
      Err(MissingColumns(Missing(r, names)))
    else
      assert forall c :: c in names ==> c in r.cells by {
        assert forall c :: c in names && c !in r.cells ==> c in Missing(r, names);
      }
      Ok(Values(r, names))
  }

  /** The values under `names`, which must all be columns of the row. */
  function Values(r: Row, names: seq<string>): (vs: seq<real>)
    requires forall c :: c in names ==> c in r.cells
    ensures |vs| == |names|
    ensures forall i :: 0 <= i < |names| ==> vs[i] == r.cells[names[i]]
  {
    if names == [] then []
    else Values(r, names[..|names| - 1]) + [r.cells[names[|names| - 1]]]
  }

  /**
   * A DataFrame holding one row, updated in place by column assignment, as the
   * page's `input_df` is.
   */
  class DataFrame {
    var columns: seq<string>
    var cells: map<string, real>

    /** The row the frame currently holds. */
    function Value(): Row
      reads this
    {
      Row(columns, cells)
    }

    ghost predicate Valid()
      reads this
    {
      WellFormed(Value())
    }

    /** `pd.DataFrame([record])` for a record whose keys are `r.columns`. */
    constructor (r: Row)
      requires WellFormed(r)
      ensures Valid() && Value() == r
    {
      columns := r.columns;
      cells := r.cells;
    }

    /** `df[col] = v`. */
    method Assign(col: string, v: real)
      requires Valid()
      modifies this
      ensures Valid()
      ensures Value() == WithColumn(old(Value()), col, v)
    {
      if col !in columns {
        columns := columns + [col];
      }
      cells := cells[col := v];
    }
  }

  /**
   * `for col in cols: df[col] = 0`: the frame ends up holding the zero-filled row;
   * each named column holds 0 and every other column keeps its value.
   */
  method AddZeroColumns(df: DataFrame, cols: seq<string>)
    requires df.Valid()
    modifies df
    ensures df.Valid()
    ensures df.Value() == ZeroFilled(old(df.Value()), cols)
    ensures forall c :: c in cols ==> c in df.cells && df.cells[c] == 0.0
    ensures forall c :: c in old(df.cells) && c !in cols ==> c in df.cells && df.cells[c] == old(df.cells)[c]
    ensures old(df.columns) <= df.columns
  {
    for i := 0 to |cols|
      invariant df.Valid()
      invariant df.Value() == ZeroFilled(old(df.Value()), cols[..i])
    {
      assert cols[..i + 1][..i] == cols[..i];
      df.Assign(cols[i], 0.0);
    }
    assert cols[..|cols|] == cols;
    ZeroFilledSpec(old(df.Value()), cols);
  }
}
