/** The discrete part of the budget normaliser: numeric coercion, zero as a
    missing sentinel, and the zero fill that precedes `log1p`. */
module Budget {
  import opened PyValues

  /** `pd.to_numeric(cell, errors="coerce")` on a cell of a column that is not
      all bools: a missing cell stays NaN, numbers pass (a bool as 1 or 0),
      and any other cell goes to `parseNumber`, pandas' own number parser;
      what it cannot parse becomes NaN. */
  function ToNumeric(cell: Value, parseNumber: Value -> Option<Float>): (f: Float)
    ensures IsMissing(cell) ==> f == NaN
    ensures cell.PyBool? ==> f == Finite(if cell.b then 1.0 else 0.0)
    ensures cell.PyInt? ==> f == Finite(cell.i as real)
    ensures cell.PyFloat? ==> f == cell.f
  {
    match cell
    case PyNone => NaN
    case PyBool(b) => Finite(if b then 1.0 else 0.0)
    case PyInt(i) => Finite(i as real)
    case PyFloat(f) => f
    case _ => if parseNumber(cell).Some? then parseNumber(cell).value else NaN
  }

  /** A column pandas holds with dtype bool: every cell is a bool.
      `pd.to_numeric` returns such a column as it is. */
  predicate BoolColumn(col: seq<Value>) {
    forall i :: 0 <= i < |col| ==> col[i].PyBool?
  }

  /** A bool column holding both True and False. */
  predicate MixedBools(col: seq<Value>): (b: bool)
    ensures b <==> BoolColumn(col) && exists i, j :: 0 <= i < |col| && 0 <= j < |col| && col[i] != col[j]
  {
    BothBools(col);
    BoolColumn(col) && PyBool(true) in col && PyBool(false) in col
  }

  /** Two different cells of a bool column are one True and one False. */
  lemma BothBools(col: seq<Value>)
    ensures BoolColumn(col) ==>
              ((PyBool(true) in col && PyBool(false) in col) <==>
               exists i, j :: 0 <= i < |col| && 0 <= j < |col| && col[i] != col[j])
  {
    if BoolColumn(col) && exists i, j :: 0 <= i < |col| && 0 <= j < |col| && col[i] != col[j] {
      var i, j :| 0 <= i < |col| && 0 <= j < |col| && col[i] != col[j];
      assert col[i] == PyBool(col[i].b) && col[j] == PyBool(!col[i].b);
    }
  }

  /** `movies["budget"] == 0`, the mask of the in-place assignment: a float
      zero, or False, which equals 0 in Python. */
  predicate IsZero(cell: Value): (b: bool)
    ensures b ==> (cell.PyFloat? && !FloatTruth(cell.f)) || cell == PyBool(false)
    ensures cell.PyBool? ==> (b <==> !cell.b)
    ensures IsMissing(cell) ==> !b
  {
    cell == PyFloat(Finite(0.0)) || cell == PyBool(false)
  }

  /** `fillna(0)` on one cell of the float budget column. */
  function FillZero(cell: Value): (f: Float)
    requires cell.PyFloat?
    ensures f != NaN
    ensures f == Finite(0.0) <==> cell.f == NaN || cell.f == Finite(0.0)
    ensures cell.f != NaN ==> f == cell.f
  {
    if cell.f != NaN then cell.f else Finite(0.0)
  }

  /** The budget of one row just before `log1p`: the parsed value with zero
      treated as missing and missing filled with zero. */
  function PreLogBudget(cell: Value, parseNumber: Value -> Option<Float>): (f: Float)
    ensures f != NaN
    ensures f == Finite(0.0) <==> ToNumeric(cell, parseNumber) in {NaN, Finite(0.0)}
    ensures ToNumeric(cell, parseNumber) !in {NaN, Finite(0.0)} ==> f == ToNumeric(cell, parseNumber)
  {
    var parsed := PyFloat(ToNumeric(cell, parseNumber));
    FillZero(if IsZero(parsed) then PyFloat(NaN) else parsed)
  }

  /** A zero budget and a missing or unparseable one end up with the same value
      before the log, so they are indistinguishable after scaling. */
  lemma ZeroAndMissingCollapse(a: Value, b: Value, parseNumber: Value -> Option<Float>)
    requires ToNumeric(a, parseNumber) in {NaN, Finite(0.0)}
    requires ToNumeric(b, parseNumber) in {NaN, Finite(0.0)}
    ensures PreLogBudget(a, parseNumber) == PreLogBudget(b, parseNumber) == Finite(0.0)
  {
  }

  /** A missing cell (None or NaN) becomes zero before the log. */
  lemma MissingBudgetIsZero(cell: Value, parseNumber: Value -> Option<Float>)
    requires IsMissing(cell)
    ensures PreLogBudget(cell, parseNumber) == Finite(0.0)
  {
  }
}
