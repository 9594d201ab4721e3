/** `preprocess`: the movie table is updated column by column in place, the
    encoders are fitted on the whole batch, and the feature table is glued
    together from the passthrough, genre and language blocks. */
module Preprocess {
  import opened PyValues
  import opened Genres
  import opened Adult
  import opened Budget
  import opened Encoders
  import opened Assembly

  /** The foreign calls the pipeline makes.
      - literalEval: `ast.literal_eval`.
      - parseNumber: the number parser `pd.to_numeric` applies to a cell that is
        neither missing nor a number; None when it cannot parse.
      - scale: `np.log1p` followed by `MinMaxScaler().fit_transform` on the
        pre-log budget column: the scaler fitted on that column, applied to one
        pre-log value, or the exception the fit raises.
      - order: the column order sklearn gives a fitted vocabulary.
      - fitError: the exception an encoder's fit raises on these labels, if
        any; sklearn hashes every label and sorts the distinct ones.
      - show: Python's `str()` of a label that is not already a string. */
  datatype Env = Env(
    literalEval: string -> Result<Value, Exception>,
    parseNumber: Value -> Option<Float>,
    scale: seq<Float> -> Result<Float -> Value, Exception>,
    order: set<Value> -> seq<Value>,
    fitError: set<Value> -> Option<Exception>,
    show: Value -> string)
  {
    /** A fitted vocabulary lists each observed value exactly once, and a fit
        over an unhashable label raises TypeError. */
    ghost predicate Valid() {
      && (forall s: set<Value> :: IsVocabulary(order(s), s))
      && (forall s: set<Value>, v :: v in s && Unhashable(v) ==> fitError(s) == Some(TypeError))
    }
  }

  /** The state of a data frame: its column names in order, each column's
      cells, and the number of rows. */
  datatype FrameState = FrameState(names: seq<string>, cells: map<string, seq<Value>>, rows: nat)

  ghost predicate Consistent(s: FrameState) {
    && Distinct(s.names)
    && (forall c :: c in s.cells <==> c in s.names)
    && (forall c :: c in s.cells ==> |s.cells[c]| == s.rows)
  }

  /** `frame.get(name, pd.Series([default] * len(frame)))` */
  function Column(s: FrameState, name: string, default: Value): (col: seq<Value>)
    requires Consistent(s)
    ensures |col| == s.rows
  {
    if name in s.cells then s.cells[name] else seq(s.rows, _ => default)
  }

  /** `frame[name] = col`: an existing column is replaced where it stands, a
      new one is appended on the right. */
  function Assigned(s: FrameState, name: string, col: seq<Value>): (t: FrameState)
    requires Consistent(s) && |col| == s.rows
    ensures Consistent(t) && t.rows == s.rows
    ensures forall c :: c in t.names <==> c in s.names || c == name
    ensures name in t.cells && t.cells[name] == col
    ensures forall c :: c in s.cells && c != name ==> c in t.cells && t.cells[c] == s.cells[c]
  {
    var names := if name in s.names then s.names else s.names + [name];
    assert forall c :: c in names <==> c in s.names || c == name;
    FrameState(names, s.cells[name := col], s.rows)
  }

  /** Every row whose cell satisfies `hit` takes `v`; the others keep their cell. */
  function Where(col: seq<Value>, hit: Value -> bool, v: Value): (r: seq<Value>)
    ensures |r| == |col|
  {
    seq(|col|, i requires 0 <= i < |col| => if hit(col[i]) then v else col[i])
  }

  /** `.apply(extract_genre_names)`: every row's genre list, or the exception
      of the first row that raises. */
  function GenreLists(col: seq<Value>, literalEval: string -> Result<Value, Exception>): (r: Result<seq<Value>, Exception>)
    ensures r.Ok? <==> forall i :: 0 <= i < |col| ==> ExtractGenreNames(col[i], literalEval).Ok?
    ensures r.Ok? ==> |r.value| == |col|
    ensures r.Ok? ==> forall i :: 0 <= i < |col| ==>
              ExtractGenreNames(col[i], literalEval).Ok? && r.value[i] == PyList(ExtractGenreNames(col[i], literalEval).value)
    ensures r.Err? ==> exists i :: 0 <= i < |col| && ExtractGenreNames(col[i], literalEval) == Err(r.error)
                                   && forall k :: 0 <= k < i ==> ExtractGenreNames(col[k], literalEval).Ok?
  {
    if col == [] then Ok([])
    else
      match ExtractGenreNames(col[0], literalEval)
      case Err(e) => Err(e)
      case Ok(names) =>
        var rest := GenreLists(col[1..], literalEval);
        if rest.Err? then
          FirstFailureShift(col, literalEval, rest.error);
          Err(rest.error)
        else
          ParsedShift(col, literalEval, names, rest.value);
          Ok([PyList(names)] + rest.value)
  }

  /** A first failing cell of `col[1..]` is a first failing cell of `col` when
      `col[0]` parses. */
  lemma FirstFailureShift(col: seq<Value>, literalEval: string -> Result<Value, Exception>, e: Exception)
    requires col != [] && ExtractGenreNames(col[0], literalEval).Ok?
    requires exists i :: 0 <= i < |col| - 1 && ExtractGenreNames(col[1..][i], literalEval) == Err(e)
                         && forall k :: 0 <= k < i ==> ExtractGenreNames(col[1..][k], literalEval).Ok?
    ensures exists i :: 0 <= i < |col| && ExtractGenreNames(col[i], literalEval) == Err(e)
                        && forall k :: 0 <= k < i ==> ExtractGenreNames(col[k], literalEval).Ok?
  {
    var tail := col[1..];
    var i :| 0 <= i < |tail| && ExtractGenreNames(tail[i], literalEval) == Err(e)
             && forall k :: 0 <= k < i ==> ExtractGenreNames(tail[k], literalEval).Ok?;
    assert col[i + 1] == tail[i];
    forall k | 0 <= k < i + 1 ensures ExtractGenreNames(col[k], literalEval).Ok? {
      if k > 0 { assert col[k] == tail[k - 1]; }
    }
  }

  /** The genre lists of `col[1..]` after that of `col[0]` are the genre lists of `col`. */
  lemma ParsedShift(col: seq<Value>, literalEval: string -> Result<Value, Exception>, names: seq<Value>, rest: seq<Value>)
    requires col != [] && ExtractGenreNames(col[0], literalEval) == Ok(names) && |rest| == |col| - 1
    requires forall i :: 0 <= i < |col| - 1 ==>
               ExtractGenreNames(col[1..][i], literalEval).Ok? && rest[i] == PyList(ExtractGenreNames(col[1..][i], literalEval).value)
    ensures forall i :: 0 <= i < |col| ==>
              ExtractGenreNames(col[i], literalEval).Ok?
              && ([PyList(names)] + rest)[i] == PyList(ExtractGenreNames(col[i], literalEval).value)
  {
    forall i | 1 <= i < |col|
      ensures ExtractGenreNames(col[i], literalEval).Ok?
              && ([PyList(names)] + rest)[i] == PyList(ExtractGenreNames(col[i], literalEval).value)
    {
      assert col[i] == col[1..][i - 1];
    }
  }

  /** `pd.to_numeric(column, errors="coerce")`: a bool column is already
      numeric and comes back as it is; any other column becomes floats. */
  function NumericColumn(col: seq<Value>, parseNumber: Value -> Option<Float>): (r: seq<Value>)
    ensures |r| == |col|
    ensures !BoolColumn(col) ==> forall i :: 0 <= i < |r| ==> r[i].PyFloat?
  {
    if BoolColumn(col) then col
    else seq(|col|, i requires 0 <= i < |col| => PyFloat(ToNumeric(col[i], parseNumber)))
  }

  /** `budget.fillna(0)`, the column handed to `log1p`. */
  function Filled(col: seq<Value>): (r: seq<Float>)
    requires forall i :: 0 <= i < |col| ==> col[i].PyFloat?
    ensures |r| == |col|
  {
    seq(|col|, i requires 0 <= i < |col| => FillZero(col[i]))
  }

  /** `np.log1p(budget.fillna(0))` up to the logarithm: the values `log1p`
      is applied to, or the exception it raises. A float column is filled with
      0; a column of True cells keeps dtype bool, and `log1p` reads True as 1;
      any other column holds Python objects, on which `log1p` raises TypeError. */
  function LogInput(col: seq<Value>): (r: Result<seq<Float>, Exception>)
    ensures r.Ok? ==> |r.value| == |col| && forall i :: 0 <= i < |col| ==> r.value[i] != NaN
    ensures r.Err? <==> (exists i :: 0 <= i < |col| && !col[i].PyFloat?) && (exists i :: 0 <= i < |col| && col[i] != PyBool(true))
    ensures r.Err? ==> r.error == TypeError
  {
    if forall i :: 0 <= i < |col| ==> col[i].PyFloat? then Ok(Filled(col))
    else if forall i :: 0 <= i < |col| ==> col[i] == PyBool(true) then Ok(seq(|col|, _ => Finite(1.0)))
    else Err(TypeError)
  }

  /** `.apply(coerce_adult)` */
  function AdultColumn(col: seq<Value>): (r: seq<Value>)
    ensures |r| == |col|
  {
    seq(|col|, i requires 0 <= i < |col| => PyBool(CoerceAdult(col[i])))
  }

  /** `fillna("unknown")` on one language cell. */
  function FillLanguage(v: Value): (r: Value)
    ensures !IsMissing(r)
    ensures IsMissing(v) ==> r == PyStr("unknown")
    ensures !IsMissing(v) ==> r == v
  {
    if IsMissing(v) then PyStr("unknown") else v
  }

  function LanguageColumn(col: seq<Value>): (r: seq<Value>)
    ensures |r| == |col|
  {
    seq(|col|, i requires 0 <= i < |col| => FillLanguage(col[i]))
  }

  /** first.py:86, 89-91: genres_list stored, budget parsed, zero budgets masked to NaN. */
  function WithBudget(s: FrameState, lists: seq<Value>, parseNumber: Value -> Option<Float>): (b: FrameState)
    requires Consistent(s) && |lists| == s.rows
    ensures Consistent(b) && b.rows == s.rows
    ensures forall c :: c in b.names <==> c in s.names || c == "genres_list" || c == "budget"
    ensures forall c :: c in s.cells && c != "genres_list" && c != "budget" ==> b.cells[c] == s.cells[c]
    ensures "genres_list" in b.cells && b.cells["genres_list"] == lists
    ensures "budget" in b.cells
    ensures b.cells["budget"] == Where(NumericColumn(Column(s, "budget", PyFloat(NaN)), parseNumber), IsZero, PyFloat(NaN))
  {
    var s1 := Assigned(s, "genres_list", lists);
    var s2 := Assigned(s1, "budget", NumericColumn(Column(s1, "budget", PyFloat(NaN)), parseNumber));
    Assigned(s2, "budget", Where(s2.cells["budget"], IsZero, PyFloat(NaN)))
  }

  /** first.py:94-100: budget_norm from the fitted scaler, adult coerced, language filled. */
  function WithFeatures(b: FrameState, preLog: seq<Float>, transform: Float -> Value): (p: FrameState)
    requires Consistent(b) && |preLog| == b.rows
    ensures Consistent(p) && p.rows == b.rows
    ensures forall c :: c in p.names <==> c in b.names || c == "budget_norm" || c == "adult" || c == "original_language"
    ensures forall c :: c in b.cells && c != "budget_norm" && c != "adult" && c != "original_language" ==>
              p.cells[c] == b.cells[c]
    ensures "budget_norm" in p.cells && p.cells["budget_norm"] == seq(|preLog|, i requires 0 <= i < |preLog| => transform(preLog[i]))
    ensures "adult" in p.cells && p.cells["adult"] == AdultColumn(Column(b, "adult", PyBool(false)))
    ensures "original_language" in p.cells
    ensures p.cells["original_language"] == LanguageColumn(Column(b, "original_language", PyStr("unknown")))
  {
    var s4 := Assigned(b, "budget_norm", seq(|preLog|, i requires 0 <= i < |preLog| => transform(preLog[i])));
    var s5 := Assigned(s4, "adult", AdultColumn(Column(s4, "adult", PyBool(false))));
    Assigned(s5, "original_language", LanguageColumn(Column(s5, "original_language", PyStr("unknown"))))
  }

  /** The frame after every in-place update of `preprocess`, or the exception
      that stops it first. */
  function Prepared(s: FrameState, env: Env): (r: Result<FrameState, Exception>)
    requires Consistent(s)
    ensures r.Ok? ==> Consistent(r.value) && r.value.rows == s.rows
  {
    match GenreLists(Column(s, "genres", PyFloat(NaN)), env.literalEval)
    case Err(e) => Err(e)
    case Ok(lists) =>
      var b := WithBudget(s, lists, env.parseNumber);
      match LogInput(b.cells["budget"])
      case Err(e) => Err(e)
      case Ok(preLog) =>
        match env.scale(preLog)
        case Err(e) => Err(e)
        case Ok(transform) => Ok(WithFeatures(b, preLog, transform))
  }

  /** `str(label)` as an f-string renders it. */
  function LabelText(show: Value -> string): (text: Value -> string)
    ensures forall v: Value :: v.PyStr? ==> text(v) == v.s
    ensures forall v: Value :: !v.PyStr? ==> text(v) == show(v)
  {
    (v: Value) => if v.PyStr? then v.s else show(v)
  }

  function GenreListsOf(p: FrameState): (lists: seq<seq<Value>>)
    requires Consistent(p) && "genres_list" in p.cells
    ensures |lists| == p.rows
  {
    var col := p.cells["genres_list"];
    seq(p.rows, i requires 0 <= i < p.rows => if col[i].PyList? then col[i].items else [])
  }

  /** The labels `mlb.fit_transform` is fitted on. */
  function GenreLabels(p: FrameState): (labels: set<Value>)
    requires Consistent(p) && "genres_list" in p.cells
    ensures forall i, x :: 0 <= i < p.rows && x in GenreListsOf(p)[i] ==> x in labels
    ensures forall x :: x in labels ==> exists i :: 0 <= i < p.rows && x in GenreListsOf(p)[i]
  {
    set x | x in Flatten(GenreListsOf(p))
  }

  /** The labels `ohe.fit_transform` is fitted on. */
  function LanguageLabels(p: FrameState): (labels: set<Value>)
    requires Consistent(p) && "original_language" in p.cells
    ensures forall i :: 0 <= i < p.rows ==> p.cells["original_language"][i] in labels
    ensures forall x :: x in labels ==> exists i :: 0 <= i < p.rows && p.cells["original_language"][i] == x
  {
    set x | x in p.cells["original_language"]
  }

  /** `mlb.classes_`: the genre labels, each once, in the fit's order. */
  function GenreVocabulary(p: FrameState, env: Env): (vocab: seq<Value>)
    requires Consistent(p) && "genres_list" in p.cells
    ensures env.Valid() ==> IsVocabulary(vocab, GenreLabels(p))
  {
    env.order(GenreLabels(p))
  }

  /** `ohe.categories_[0]`: the language labels, each once, in the fit's order. */
  function LanguageVocabulary(p: FrameState, env: Env): (vocab: seq<Value>)
    requires Consistent(p) && "original_language" in p.cells
    ensures env.Valid() ==> IsVocabulary(vocab, LanguageLabels(p))
  {
    env.order(LanguageLabels(p))
  }

  /** first.py:107-110: the `genre_` block. */
  function GenreBlock(p: FrameState, env: Env): (t: Table)
    requires Consistent(p) && "genres_list" in p.cells
    ensures WellFormed(t) && t.rows == p.rows
  {
    var vocab := GenreVocabulary(p, env);
    Indicators(ColumnNames("genre_", vocab, LabelText(env.show)), MultiLabel(GenreListsOf(p), vocab))
  }

  /** first.py:100-104: the `lang_` block. */
  function LanguageBlock(p: FrameState, env: Env): (t: Table)
    requires Consistent(p) && "original_language" in p.cells
    ensures WellFormed(t) && t.rows == p.rows
  {
    var langs := p.cells["original_language"];
    var vocab := LanguageVocabulary(p, env);
    Indicators(ColumnNames("lang_", vocab, LabelText(env.show)), OneHot(langs, vocab))
  }

  /** `movies[base_cols]`: the named columns, in the given order. */
  function BaseBlock(p: FrameState, base: seq<string>): (t: Table)
    requires Consistent(p) && forall c :: c in base ==> c in p.names
    ensures WellFormed(t) && t.rows == p.rows
    ensures t.names == base && forall j :: 0 <= j < |base| ==> t.data[j] == p.cells[base[j]]
  {
    Select(p.cells, base, p.rows)
  }

  /** first.py:113-125: passthrough, genre and language blocks side by side. */
  function Output(p: FrameState, env: Env): (t: Table)
    requires Consistent(p) && "genres_list" in p.cells && "original_language" in p.cells
    ensures WellFormed(t) && t.rows == p.rows
  {
    Concat(Concat(BaseBlock(p, PresentIn(Passthrough, p.names)), GenreBlock(p, env)), LanguageBlock(p, env))
  }

  /** first.py:100-125 on the updated frame: the language fit, then the genre
      fit, then the assembled table. */
  function Encoded(p: FrameState, env: Env): (r: Result<Table, Exception>)
    requires Consistent(p) && "genres_list" in p.cells && "original_language" in p.cells
    ensures r.Ok? ==> WellFormed(r.value) && r.value.rows == p.rows
  {
    match env.fitError(LanguageLabels(p))
    case Some(e) => Err(e)
    case None =>
      match env.fitError(GenreLabels(p))
      case Some(e) => Err(e)
      case None => Ok(Output(p, env))
  }

  /** The feature table `preprocess` writes for a frame, or the exception it
      raises: the in-place updates, then the two encoder fits. */
  function Features(s: FrameState, env: Env): (r: Result<Table, Exception>)
    requires Consistent(s)
    ensures r.Ok? ==> WellFormed(r.value) && r.value.rows == s.rows
  {
    match Prepared(s, env)
    case Err(e) => Err(e)
    case Ok(p) =>
      assert "genres_list" in p.cells && "original_language" in p.cells by { PreparedFacts(s, env); }
      Encoded(p, env)
  }

  /** A run that returns a table went through every update and both fits,
      and returns the assembled table of the updated frame. */
  lemma FeaturesOk(s: FrameState, env: Env)
    requires Consistent(s) && Features(s, env).Ok?
    ensures Prepared(s, env).Ok?
    ensures "genres_list" in Prepared(s, env).value.cells && "original_language" in Prepared(s, env).value.cells
    ensures Features(s, env).value == Output(Prepared(s, env).value, env)
  {
    PreparedHasColumns(s, env);
    var p := Prepared(s, env).value;
    assert Features(s, env) == Encoded(p, env);
    EncodedOk(p, env);
  }

  lemma EncodedOk(p: FrameState, env: Env)
    requires Consistent(p) && "genres_list" in p.cells && "original_language" in p.cells && Encoded(p, env).Ok?
    ensures env.fitError(LanguageLabels(p)).None? && env.fitError(GenreLabels(p)).None?
    ensures Encoded(p, env).value == Output(p, env)
  {
  }

  lemma PreparedHasColumns(s: FrameState, env: Env)
    requires Consistent(s) && Prepared(s, env).Ok?
    ensures "genres_list" in Prepared(s, env).value.cells && "original_language" in Prepared(s, env).value.cells
  {
    PreparedFacts(s, env);
  }

  /** The columns that `preprocess` assigns. */
  const AssignedColumns: set<string> := {"genres_list", "budget", "budget_norm", "adult", "original_language"}

  /** Each row's budget just before `log1p`. */
  function PreLogColumn(s: FrameState, parseNumber: Value -> Option<Float>): (r: seq<Float>)
    requires Consistent(s)
    ensures |r| == s.rows
  {
    PreLog(Column(s, "budget", PyFloat(NaN)), parseNumber)
  }

  /** The `budget_norm` column: the fitted scaler applied to every pre-log budget. */
  function BudgetNormColumn(s: FrameState, env: Env): (col: seq<Value>)
    requires Consistent(s) && env.scale(PreLogColumn(s, env.parseNumber)).Ok?
    ensures |col| == s.rows
  {
    var pre := PreLogColumn(s, env.parseNumber);
    seq(|pre|, i requires 0 <= i < |pre| => env.scale(pre).value(pre[i]))
  }

  /** The genre names `extract_genre_names` gives row `i` ([] if it raised). */
  function RowGenres(s: FrameState, env: Env, i: nat): seq<Value>
    requires Consistent(s) && i < s.rows
  {
    var r := ExtractGenreNames(Column(s, "genres", PyFloat(NaN))[i], env.literalEval);
    if r.Ok? then r.value else []
  }

  /** Row `i`'s language after `fillna("unknown")`. */
  function RowLanguage(s: FrameState, i: nat): Value
    requires Consistent(s) && i < s.rows
  {
    FillLanguage(Column(s, "original_language", PyStr("unknown"))[i])
  }

  /** The passthrough columns the output starts with, in terms of the input frame. */
  function BaseColumnsOf(s: FrameState): seq<string> {
    PresentIn(["id", "original_title", "overview"], s.names) + ["budget_norm", "adult"]
  }

  /** The input's budget column holds bools only, both True and False. */
  predicate MixedBoolBudget(s: FrameState)
    requires Consistent(s)
  {
    MixedBools(Column(s, "budget", PyFloat(NaN)))
  }

  /** Each row's pre-log budget, read off one budget column. */
  function PreLog(raw: seq<Value>, parseNumber: Value -> Option<Float>): (r: seq<Float>)
    ensures |r| == |raw|
  {
    seq(|raw|, i requires 0 <= i < |raw| => PreLogBudget(raw[i], parseNumber))
  }

  /** Parsing, masking and filling a budget column that is not all bools gives
      each row's pre-log budget. */
  lemma FloatBudgetSteps(raw: seq<Value>, parseNumber: Value -> Option<Float>)
    requires !BoolColumn(raw)
    ensures LogInput(Where(NumericColumn(raw, parseNumber), IsZero, PyFloat(NaN))) == Ok(PreLog(raw, parseNumber))
  {
    var masked := Where(NumericColumn(raw, parseNumber), IsZero, PyFloat(NaN));
    forall i | 0 <= i < |raw| ensures masked[i].PyFloat? && FillZero(masked[i]) == PreLog(raw, parseNumber)[i] {
      var parsed := PyFloat(ToNumeric(raw[i], parseNumber));
      assert NumericColumn(raw, parseNumber)[i] == parsed;
      assert masked[i] == if IsZero(parsed) then PyFloat(NaN) else parsed;
    }
    assert Filled(masked) == PreLog(raw, parseNumber);
  }

  /** Masking a bool column whose cells are all one value: False cells all
      become NaN, which fills to 0; True cells stay a bool column, read as 1. */
  lemma UniformBoolSteps(raw: seq<Value>, parseNumber: Value -> Option<Float>)
    requires BoolColumn(raw) && !MixedBools(raw)
    ensures LogInput(Where(NumericColumn(raw, parseNumber), IsZero, PyFloat(NaN))) == Ok(PreLog(raw, parseNumber))
  {
    assert NumericColumn(raw, parseNumber) == raw;
    var masked := Where(raw, IsZero, PyFloat(NaN));
    if PyBool(true) !in raw {
      forall i | 0 <= i < |raw| ensures raw[i] == PyBool(false) && masked[i] == PyFloat(NaN) {
        assert raw[i] in raw && raw[i] == PyBool(raw[i].b);
      }
      assert Filled(masked) == PreLog(raw, parseNumber);
    } else {
      assert PyBool(false) !in raw;
      forall i | 0 <= i < |raw| ensures raw[i] == PyBool(true) && masked[i] == raw[i] {
        assert raw[i] in raw && raw[i] == PyBool(raw[i].b);
      }
      if raw != [] {
        assert !masked[0].PyFloat?;
      }
      assert seq(|raw|, _ => Finite(1.0)) == PreLog(raw, parseNumber);
    }
  }

  /** Masking a bool column holding both values leaves True beside NaN: an
      object column, on which `log1p` raises TypeError. */
  lemma MixedBoolSteps(raw: seq<Value>, parseNumber: Value -> Option<Float>)
    requires MixedBools(raw)
    ensures LogInput(Where(NumericColumn(raw, parseNumber), IsZero, PyFloat(NaN))) == Err(TypeError)
  {
    assert BoolColumn(raw) && PyBool(true) in raw && PyBool(false) in raw;
    assert NumericColumn(raw, parseNumber) == raw;
    var masked := Where(raw, IsZero, PyFloat(NaN));
    var i :| 0 <= i < |raw| && raw[i] == PyBool(true);
    var j :| 0 <= j < |raw| && raw[j] == PyBool(false);
    assert !IsZero(raw[i]) && IsZero(raw[j]);
    assert masked[i] == raw[i];
    assert masked[j] == PyFloat(NaN);
  }

  /** The budget steps of first.py:89-92 on a column: a bool column holding
      both True and False raises TypeError at `log1p`, and every other
      column gives each row's pre-log budget. */
  lemma BudgetSteps(raw: seq<Value>, parseNumber: Value -> Option<Float>)
    ensures LogInput(Where(NumericColumn(raw, parseNumber), IsZero, PyFloat(NaN))) ==
              if MixedBools(raw) then Err(TypeError) else Ok(PreLog(raw, parseNumber))
  {
    if MixedBools(raw) {
      MixedBoolSteps(raw, parseNumber);
    } else if BoolColumn(raw) {
      UniformBoolSteps(raw, parseNumber);
    } else {
      FloatBudgetSteps(raw, parseNumber);
    }
  }

  /** The parse, mask and fill steps on the frame's budget column raise
      TypeError for a bool column holding both values, and otherwise give
      each row's pre-log budget. */
  lemma FilledBudget(s: FrameState, lists: seq<Value>, parseNumber: Value -> Option<Float>)
    requires Consistent(s) && |lists| == s.rows
    ensures LogInput(WithBudget(s, lists, parseNumber).cells["budget"]) ==
              if MixedBoolBudget(s) then Err(TypeError) else Ok(PreLogColumn(s, parseNumber))
  {
    BudgetSteps(Column(s, "budget", PyFloat(NaN)), parseNumber);
  }

  /** `preprocess` succeeds exactly through its three stages. */
  lemma PreparedStages(s: FrameState, env: Env)
    requires Consistent(s) && Prepared(s, env).Ok?
    ensures GenreLists(Column(s, "genres", PyFloat(NaN)), env.literalEval).Ok?
    ensures !MixedBoolBudget(s) && env.scale(PreLogColumn(s, env.parseNumber)).Ok?
    ensures var lists := GenreLists(Column(s, "genres", PyFloat(NaN)), env.literalEval).value;
            var pre := PreLogColumn(s, env.parseNumber);
            Prepared(s, env).value == WithFeatures(WithBudget(s, lists, env.parseNumber), pre, env.scale(pre).value)
  {
    var lists := GenreLists(Column(s, "genres", PyFloat(NaN)), env.literalEval);
    FilledBudget(s, lists.value, env.parseNumber);
  }

  /** The two update stages, in terms of the frame they start from. */
  lemma StagesFacts(s: FrameState, lists: seq<Value>, parseNumber: Value -> Option<Float>,
                    pre: seq<Float>, transform: Float -> Value)
    requires Consistent(s) && |lists| == s.rows && |pre| == s.rows
    ensures var p := WithFeatures(WithBudget(s, lists, parseNumber), pre, transform);
      && (forall c :: c in p.names <==> c in s.names || c in AssignedColumns)
      && (forall c :: c in s.cells && c !in AssignedColumns ==> p.cells[c] == s.cells[c])
      && "genres_list" in p.cells && p.cells["genres_list"] == lists
      && "adult" in p.cells && p.cells["adult"] == AdultColumn(Column(s, "adult", PyBool(false)))
      && "original_language" in p.cells
      && p.cells["original_language"] == LanguageColumn(Column(s, "original_language", PyStr("unknown")))
  {
    var b := WithBudget(s, lists, parseNumber);
    ColumnKept(s, b, "adult", PyBool(false));
    ColumnKept(s, b, "original_language", PyStr("unknown"));
  }

  /** A column that an update leaves alone reads the same before and after. */
  lemma ColumnKept(s: FrameState, t: FrameState, name: string, default: Value)
    requires Consistent(s) && Consistent(t) && t.rows == s.rows
    requires name in t.cells <==> name in s.cells
    requires name in s.cells ==> t.cells[name] == s.cells[name]
    ensures Column(t, name, default) == Column(s, name, default)
  {
  }

  /** What the in-place updates leave behind. */
  lemma PreparedFacts(s: FrameState, env: Env)
    requires Consistent(s) && Prepared(s, env).Ok?
    ensures GenreLists(Column(s, "genres", PyFloat(NaN)), env.literalEval).Ok?
    ensures !MixedBoolBudget(s) && env.scale(PreLogColumn(s, env.parseNumber)).Ok?
    ensures var p := Prepared(s, env).value;
      && (forall c :: c in p.names <==> c in s.names || c in AssignedColumns)
      && (forall c :: c in s.cells && c !in AssignedColumns ==> p.cells[c] == s.cells[c])
      && "genres_list" in p.cells && "original_language" in p.cells && "adult" in p.cells && "budget_norm" in p.cells
      && p.cells["genres_list"] == GenreLists(Column(s, "genres", PyFloat(NaN)), env.literalEval).value
      && p.cells["adult"] == AdultColumn(Column(s, "adult", PyBool(false)))
      && p.cells["original_language"] == LanguageColumn(Column(s, "original_language", PyStr("unknown")))
      && p.cells["budget_norm"] == BudgetNormColumn(s, env)
  {
    PreparedStages(s, env);
    var lists := GenreLists(Column(s, "genres", PyFloat(NaN)), env.literalEval).value;
    var pre := PreLogColumn(s, env.parseNumber);
    StagesFacts(s, lists, env.parseNumber, pre, env.scale(pre).value);
  }

  /** The feature table is the passthrough block, then the genre block, then the
      language block, all as tall as the frame. */
  lemma OutputLayout(p: FrameState, env: Env)
    requires Consistent(p) && "genres_list" in p.cells && "original_language" in p.cells
    ensures var t := Output(p, env);
      var base := BaseBlock(p, PresentIn(Passthrough, p.names));
      && t.rows == p.rows
      && t.names == base.names + GenreBlock(p, env).names + LanguageBlock(p, env).names
      && t.data == base.data + GenreBlock(p, env).data + LanguageBlock(p, env).data
  {
    var base := BaseBlock(p, PresentIn(Passthrough, p.names));
    ConcatAligned(base, GenreBlock(p, env));
    ConcatAligned(Concat(base, GenreBlock(p, env)), LanguageBlock(p, env));
  }

  /** Membership in a filter depends only on membership in the filtered-by list. */
  lemma {:induction false} PresentInSameMembers(wanted: seq<string>, a: seq<string>, b: seq<string>)
    requires forall c :: c in wanted ==> (c in a <==> c in b)
    ensures PresentIn(wanted, a) == PresentIn(wanted, b)
  {
    if wanted != [] {
      PresentInSameMembers(wanted[..|wanted| - 1], a, b);
    }
  }

  lemma KeptNotAssigned(c: string)
    requires c in ["id", "original_title", "overview"]
    ensures c !in AssignedColumns
  {
  }

  lemma PassthroughAfterAssignment(after: seq<string>, before: seq<string>)
    requires forall c :: c in after <==> c in before || c in AssignedColumns
    ensures PresentIn(Passthrough, after) == PresentIn(["id", "original_title", "overview"], before) + ["budget_norm", "adult"]
  {
    var first: seq<string> := ["id", "original_title", "overview"];
    var last: seq<string> := ["budget_norm", "adult"];
    assert Passthrough == first + last;
    PresentInAppend(first, last, after);
    forall c | c in first ensures c in after <==> c in before {
      KeptNotAssigned(c);
    }
    PresentInSameMembers(first, after, before);
    assert "budget_norm" in AssignedColumns && "adult" in AssignedColumns;
    PresentInAll(last, after);
  }

  /** `budget_norm` and `adult` always exist by the time `base_cols` is built,
      so the passthrough block is the input's id, original_title and overview
      columns that exist, then budget_norm and adult. */
  lemma BaseColumnsOfPrepared(s: FrameState, env: Env)
    requires Consistent(s) && Prepared(s, env).Ok?
    ensures PresentIn(Passthrough, Prepared(s, env).value.names) == BaseColumnsOf(s)
  {
    PreparedFacts(s, env);
    PassthroughAfterAssignment(Prepared(s, env).value.names, s.names);
  }

  /** The in-place updates stop at the first stage that fails, the genre
      parse, then `log1p` on a bool budget column holding both values, then
      the budget scaler, and `preprocess` raises its error. */
  lemma FeaturesErrorStage(s: FrameState, env: Env)
    requires Consistent(s)
    ensures var lists := GenreLists(Column(s, "genres", PyFloat(NaN)), env.literalEval);
            var scaled := env.scale(PreLogColumn(s, env.parseNumber));
      && (Prepared(s, env).Err? <==> lists.Err? || MixedBoolBudget(s) || scaled.Err?)
      && (lists.Err? ==> Features(s, env) == Err(lists.error))
      && (lists.Ok? && MixedBoolBudget(s) ==> Features(s, env) == Err(TypeError))
      && (lists.Ok? && !MixedBoolBudget(s) && scaled.Err? ==> Features(s, env) == Err(scaled.error))
  {
    var lists := GenreLists(Column(s, "genres", PyFloat(NaN)), env.literalEval);
    if lists.Ok? {
      FilledBudget(s, lists.value, env.parseNumber);
    }
  }

  /** Once the updates succeed, `preprocess` raises the language fit's error,
      else the genre fit's, else it returns the assembled table. */
  lemma FitStages(s: FrameState, env: Env)
    requires Consistent(s) && Prepared(s, env).Ok?
    ensures "genres_list" in Prepared(s, env).value.cells && "original_language" in Prepared(s, env).value.cells
    ensures var p := Prepared(s, env).value;
            var lang := env.fitError(LanguageLabels(p));
            var genre := env.fitError(GenreLabels(p));
      && (lang.Some? ==> Features(s, env) == Err(lang.value))
      && (lang.None? && genre.Some? ==> Features(s, env) == Err(genre.value))
      && (lang.None? && genre.None? ==> Features(s, env) == Ok(Output(p, env)))
  {
    PreparedFacts(s, env);
  }

  /** The `movies` data frame that `preprocess` updates in place. */
  class Frame {
    var names: seq<string>
    var cells: map<string, seq<Value>>
    const rows: nat

    function State(): FrameState
      reads this
    {
      FrameState(names, cells, rows)
    }

    ghost predicate Valid()
      reads this
    {
      Consistent(State())
    }

    constructor (s: FrameState)
      requires Consistent(s)
      ensures Valid() && State() == s
    {
      names, cells, rows := s.names, s.cells, s.rows;
    }

    /** `movies[name] = col` */
    method Assign(name: string, col: seq<Value>)
      requires Valid() && |col| == rows
      modifies this
      ensures Valid() && State() == Assigned(old(State()), name, col)
    {
      if name !in names {
        names := names + [name];
      }
      cells := cells[name := col];
    }

    /** `movies.loc[hit(movies[name]), name] = v`: the rows whose cell satisfies
        `hit` are overwritten one by one. */
    method AssignWhere(name: string, hit: Value -> bool, v: Value)
      requires Valid() && name in cells
      modifies this
      ensures Valid() && State() == Assigned(old(State()), name, Where(old(cells[name]), hit, v))
    {
      ghost var before := cells[name];
      var i := 0;
      while i < rows
        invariant 0 <= i <= rows
        invariant names == old(names) && name in cells
        invariant cells == old(cells)[name := cells[name]]
        invariant |cells[name]| == rows
        invariant forall k :: 0 <= k < i ==> cells[name][k] == Where(before, hit, v)[k]
        invariant forall k :: i <= k < rows ==> cells[name][k] == before[k]
      {
        if hit(cells[name][i]) {
          cells := cells[name := cells[name][i := v]];
        }
        i := i + 1;
      }
      assert cells[name] == Where(before, hit, v);
    }
  }

  /** first.py:86, 89-91 on the frame: store the genre lists, parse the
      budget, and mask zero budgets to NaN in place. */
  method ApplyBudget(movies: Frame, lists: seq<Value>, parseNumber: Value -> Option<Float>)
    requires movies.Valid() && |lists| == movies.rows
    modifies movies
    ensures movies.Valid() && movies.State() == WithBudget(old(movies.State()), lists, parseNumber)
  {
    movies.Assign("genres_list", lists);
    movies.Assign("budget", NumericColumn(Column(movies.State(), "budget", PyFloat(NaN)), parseNumber));
    movies.AssignWhere("budget", IsZero, PyFloat(NaN));
  }

  /** first.py:94-100 on the frame: the scaled budget, the coerced adult flag and
      the filled language. */
  method ApplyFeatures(movies: Frame, preLog: seq<Float>, transform: Float -> Value)
    requires movies.Valid() && |preLog| == movies.rows
    modifies movies
    ensures movies.Valid() && movies.State() == WithFeatures(old(movies.State()), preLog, transform)
  {
    movies.Assign("budget_norm", seq(|preLog|, i requires 0 <= i < |preLog| => transform(preLog[i])));
    movies.Assign("adult", AdultColumn(Column(movies.State(), "adult", PyBool(false))));
    movies.Assign("original_language", LanguageColumn(Column(movies.State(), "original_language", PyStr("unknown"))));
  }

  /** `preprocess` from reading the table to assembling `processed_df`. The
      result is the feature table of the frame as it was on entry; on success
      the frame holds every assigned column, and on an exception it holds
      what was assigned before the raise. */
  method Preprocess(movies: Frame, env: Env) returns (result: Result<Table, Exception>)
    requires movies.Valid()
    modifies movies
    ensures movies.Valid()
    ensures result == Features(old(movies.State()), env)
    ensures Prepared(old(movies.State()), env).Ok? ==> movies.State() == Prepared(old(movies.State()), env).value
    ensures GenreLists(Column(old(movies.State()), "genres", PyFloat(NaN)), env.literalEval).Err? ==>
              movies.State() == old(movies.State())
    ensures var lists := GenreLists(Column(old(movies.State()), "genres", PyFloat(NaN)), env.literalEval);
            lists.Ok? && Prepared(old(movies.State()), env).Err? ==>
              movies.State() == WithBudget(old(movies.State()), lists.value, env.parseNumber)
  {
    ghost var s0 := movies.State();
    var genres := GenreLists(Column(movies.State(), "genres", PyFloat(NaN)), env.literalEval);
    if genres.Err? {
      return Err(genres.error);
    }
    ApplyBudget(movies, genres.value, env.parseNumber);
    var preLog := LogInput(movies.cells["budget"]);
    if preLog.Err? {
      return Err(preLog.error);
    }
    var scaler := env.scale(preLog.value);
    if scaler.Err? {
      return Err(scaler.error);
    }
    ApplyFeatures(movies, preLog.value, scaler.value);
    assert Prepared(s0, env) == Ok(movies.State());
    PreparedFacts(s0, env);
    result := Encode(movies.State(), env);
  }

  /** first.py:100-125: fit the language encoder, then the genre encoder, then
      assemble the passthrough, genre and language blocks. */
  method Encode(p: FrameState, env: Env) returns (result: Result<Table, Exception>)
    requires Consistent(p) && "genres_list" in p.cells && "original_language" in p.cells
    ensures result == Encoded(p, env)
  {
    var langFit := env.fitError(LanguageLabels(p));
    if langFit.Some? {
      return Err(langFit.value);
    }
    var languageBlock := LanguageBlock(p, env);
    var genreFit := env.fitError(GenreLabels(p));
    if genreFit.Some? {
      return Err(genreFit.value);
    }
    var genreBlock := GenreBlock(p, env);
    var baseCols := BaseColumns(p.names);
    result := Ok(Concat(Concat(BaseBlock(p, baseCols), genreBlock), languageBlock));
  }
}
