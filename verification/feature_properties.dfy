/** What the feature table `preprocess` writes says about the movie table it
    read: its column layout, the passthrough, adult and budget columns, and the
    indicator cells of the genre and language blocks. */
module FeatureProperties {
  import opened PyValues
  import opened Genres
  import opened Budget
  import opened Encoders
  import opened Assembly
  import opened Preprocess

  /** Every row's genre names, as `extract_genre_names` reads them from the input. */
  function RowGenreLists(s: FrameState, env: Env): (lists: seq<seq<Value>>)
    requires Consistent(s)
    ensures |lists| == s.rows
  {
    seq(s.rows, i requires 0 <= i < s.rows => RowGenres(s, env, i))
  }

  /** The genre names of all input rows: what the genre encoder is fitted on. */
  function InputGenreLabels(s: FrameState, env: Env): set<Value>
    requires Consistent(s)
  {
    set x | x in Flatten(RowGenreLists(s, env))
  }

  /** The filled languages of all input rows: what the language encoder is fitted on. */
  function InputLanguageLabels(s: FrameState): set<Value>
    requires Consistent(s)
  {
    set x | x in LanguageColumn(Column(s, "original_language", PyStr("unknown")))
  }

  /** The genre vocabulary, fitted on the genre names of all input rows. */
  function GenreVocabularyOf(s: FrameState, env: Env): seq<Value>
    requires Consistent(s)
  {
    env.order(InputGenreLabels(s, env))
  }

  /** The language vocabulary, fitted on the filled language of all input rows. */
  function LanguageVocabularyOf(s: FrameState, env: Env): seq<Value>
    requires Consistent(s)
  {
    env.order(InputLanguageLabels(s))
  }

  /** The genre lists the encoder reads are the input rows' genre names. */
  lemma {:induction false} StoredGenreLists(s: FrameState, env: Env, p: FrameState)
    requires Consistent(s) && Consistent(p) && p.rows == s.rows && "genres_list" in p.cells
    requires GenreLists(Column(s, "genres", PyFloat(NaN)), env.literalEval).Ok?
    requires p.cells["genres_list"] == GenreLists(Column(s, "genres", PyFloat(NaN)), env.literalEval).value
    ensures GenreListsOf(p) == RowGenreLists(s, env)
  {
    var col := Column(s, "genres", PyFloat(NaN));
    forall i | 0 <= i < s.rows ensures GenreListsOf(p)[i] == RowGenreLists(s, env)[i] {
      assert p.cells["genres_list"][i] == PyList(ExtractGenreNames(col[i], env.literalEval).value);
    }
  }

  /** The encoders see what the in-place updates stored, and that is what the
      input rows say. */
  lemma VocabulariesFromInput(s: FrameState, env: Env)
    requires Consistent(s) && Prepared(s, env).Ok?
    ensures "genres_list" in Prepared(s, env).value.cells && "original_language" in Prepared(s, env).value.cells
    ensures GenreListsOf(Prepared(s, env).value) == RowGenreLists(s, env)
    ensures GenreLabels(Prepared(s, env).value) == InputGenreLabels(s, env)
    ensures LanguageLabels(Prepared(s, env).value) == InputLanguageLabels(s)
    ensures GenreVocabulary(Prepared(s, env).value, env) == GenreVocabularyOf(s, env)
    ensures LanguageVocabulary(Prepared(s, env).value, env) == LanguageVocabularyOf(s, env)
  {
    PreparedFacts(s, env);
    var p := Prepared(s, env).value;
    StoredGenreLists(s, env, p);
    LabelsOfStored(s, env, p);
  }

  lemma LabelsOfStored(s: FrameState, env: Env, p: FrameState)
    requires Consistent(s) && Consistent(p) && "genres_list" in p.cells && "original_language" in p.cells
    requires GenreListsOf(p) == RowGenreLists(s, env)
    requires p.cells["original_language"] == LanguageColumn(Column(s, "original_language", PyStr("unknown")))
    ensures GenreLabels(p) == InputGenreLabels(s, env) && LanguageLabels(p) == InputLanguageLabels(s)
    ensures GenreVocabulary(p, env) == GenreVocabularyOf(s, env) && LanguageVocabulary(p, env) == LanguageVocabularyOf(s, env)
  {
  }

  /** No genres cell makes `extract_genre_names` raise. */
  predicate GenresParse(s: FrameState, env: Env)
    requires Consistent(s)
  {
    forall i :: 0 <= i < s.rows ==> ExtractGenreNames(Column(s, "genres", PyFloat(NaN))[i], env.literalEval).Ok?
  }

  /** Which inputs make `preprocess` raise: a genres cell whose parse raises
      something other than ValueError or SyntaxError, a bool budget column
      holding both True and False, the budget scaler, the language fit or the
      genre fit. */
  lemma FeaturesFailure(s: FrameState, env: Env)
    requires Consistent(s)
    ensures Features(s, env).Err? <==>
              || !GenresParse(s, env)
              || MixedBoolBudget(s)
              || env.scale(PreLogColumn(s, env.parseNumber)).Err?
              || env.fitError(InputLanguageLabels(s)).Some?
              || env.fitError(InputGenreLabels(s, env)).Some?
  {
    FeaturesErrorStage(s, env);
    if Prepared(s, env).Ok? {
      InputFitStages(s, env);
    }
  }

  /** What `preprocess` raises: the exception of the first genres cell whose
      parse raises, else TypeError from `log1p` on a bool budget column
      holding both values, else the budget scaler's, else the language fit's,
      else the genre fit's. */
  lemma FeaturesError(s: FrameState, env: Env)
    requires Consistent(s)
    ensures var col := Column(s, "genres", PyFloat(NaN));
            !GenresParse(s, env) ==>
              && Features(s, env).Err?
              && exists i :: 0 <= i < s.rows && ExtractGenreNames(col[i], env.literalEval) == Err(Features(s, env).error)
                             && forall k :: 0 <= k < i ==> ExtractGenreNames(col[k], env.literalEval).Ok?
    ensures GenresParse(s, env) && MixedBoolBudget(s) ==> Features(s, env) == Err(TypeError)
    ensures var scaled := env.scale(PreLogColumn(s, env.parseNumber));
            GenresParse(s, env) && !MixedBoolBudget(s) && scaled.Err? ==> Features(s, env) == Err(scaled.error)
    ensures var lang := env.fitError(InputLanguageLabels(s));
            GenresParse(s, env) && !MixedBoolBudget(s) && env.scale(PreLogColumn(s, env.parseNumber)).Ok? && lang.Some? ==>
              Features(s, env) == Err(lang.value)
    ensures var lang := env.fitError(InputLanguageLabels(s));
            var genre := env.fitError(InputGenreLabels(s, env));
            GenresParse(s, env) && !MixedBoolBudget(s) && env.scale(PreLogColumn(s, env.parseNumber)).Ok? && lang.None? && genre.Some? ==>
              Features(s, env) == Err(genre.value)
  {
    FeaturesErrorStage(s, env);
    if Prepared(s, env).Ok? {
      InputFitStages(s, env);
    }
  }

  /** A budget column read as bools, holding both True and False, makes
      `preprocess` raise TypeError: the mask turns it into an object column
      of True and NaN, and `log1p` cannot be applied to it. */
  lemma BoolBudgetRaises(env: Env)
    ensures var s := FrameState(["budget"], map["budget" := [PyBool(true), PyBool(false)]], 2);
            Consistent(s) && Features(s, env) == Err(TypeError)
  {
    var s := FrameState(["budget"], map["budget" := [PyBool(true), PyBool(false)]], 2);
    assert Consistent(s);
    var genres := Column(s, "genres", PyFloat(NaN));
    assert ExtractGenreNames(genres[0], env.literalEval).Ok? && ExtractGenreNames(genres[1], env.literalEval).Ok?;
    assert MixedBools(Column(s, "budget", PyFloat(NaN)));
    FeaturesErrorStage(s, env);
  }

  /** A budget column of True cells only stays a bool column, and every row's
      pre-log budget is 1. */
  lemma TrueBudgetIsOne(s: FrameState, env: Env)
    requires Consistent(s) && "budget" in s.cells && forall i :: 0 <= i < s.rows ==> s.cells["budget"][i] == PyBool(true)
    ensures !MixedBoolBudget(s)
    ensures forall i :: 0 <= i < s.rows ==> PreLogColumn(s, env.parseNumber)[i] == Finite(1.0)
  {
    assert PyBool(false) !in s.cells["budget"];
  }

  /** The two fits see the labels of the input rows. */
  lemma InputFitStages(s: FrameState, env: Env)
    requires Consistent(s) && Prepared(s, env).Ok?
    ensures var lang := env.fitError(InputLanguageLabels(s));
            var genre := env.fitError(InputGenreLabels(s, env));
      && (lang.Some? ==> Features(s, env) == Err(lang.value))
      && (lang.None? && genre.Some? ==> Features(s, env) == Err(genre.value))
      && (lang.None? && genre.None? ==> Features(s, env).Ok?)
  {
    VocabulariesFromInput(s, env);
    FitStages(s, env);
  }

  /** A genre name that cannot be hashed, such as the list `["Drama"]` read
      from `[{"name": ["Drama"]}]`, makes `preprocess` raise: TypeError from
      the genre fit unless an earlier stage raised first. */
  lemma UnhashableGenreRaises(s: FrameState, env: Env, i: nat, x: Value)
    requires Consistent(s) && env.Valid() && i < s.rows
    requires x in RowGenres(s, env, i) && Unhashable(x)
    ensures Features(s, env).Err?
    ensures GenresParse(s, env) && !MixedBoolBudget(s) && env.scale(PreLogColumn(s, env.parseNumber)).Ok? && env.fitError(InputLanguageLabels(s)).None? ==>
              Features(s, env) == Err(TypeError)
  {
    assert RowGenreLists(s, env)[i] == RowGenres(s, env, i);
    assert x in InputGenreLabels(s, env);
    FeaturesFailure(s, env);
    FeaturesError(s, env);
  }

  /** A filled language that cannot be hashed makes `preprocess` raise:
      TypeError from the language fit unless an earlier stage raised first. */
  lemma UnhashableLanguageRaises(s: FrameState, env: Env, i: nat)
    requires Consistent(s) && env.Valid() && i < s.rows && Unhashable(RowLanguage(s, i))
    ensures Features(s, env).Err?
    ensures GenresParse(s, env) && !MixedBoolBudget(s) && env.scale(PreLogColumn(s, env.parseNumber)).Ok? ==>
              Features(s, env) == Err(TypeError)
  {
    assert LanguageColumn(Column(s, "original_language", PyStr("unknown")))[i] == RowLanguage(s, i);
    assert RowLanguage(s, i) in InputLanguageLabels(s);
    FeaturesFailure(s, env);
    FeaturesError(s, env);
  }

  /** No indicator column is named like a passthrough column: every passthrough
      name starts with a letter other than the `g` of `genre_` and the `l` of `lang_`. */
  lemma IndicatorNamesAreNotPassthrough(prefix: string, vocab: seq<Value>, text: Value -> string)
    requires prefix == "genre_" || prefix == "lang_"
    ensures forall n :: n in ColumnNames(prefix, vocab, text) ==> n !in Passthrough
  {
    forall n | n in ColumnNames(prefix, vocab, text) ensures n !in Passthrough {
      var j :| 0 <= j < |vocab| && ColumnNames(prefix, vocab, text)[j] == n;
      assert n[0] == prefix[0];
    }
  }

  /** The genre and language blocks never share a column name. */
  lemma IndicatorGroupsDisjoint(g: seq<Value>, l: seq<Value>, text: Value -> string)
    ensures forall n :: n in ColumnNames("genre_", g, text) ==> n !in ColumnNames("lang_", l, text)
  {
    forall n | n in ColumnNames("genre_", g, text) ensures n !in ColumnNames("lang_", l, text) {
      assert n[0] == 'g';
    }
  }

  /** In the assembled table, a passthrough name labels the stored column of
      that name, and it appears exactly when the frame has it. */
  lemma OutputPassthrough(p: FrameState, env: Env)
    requires Consistent(p) && "genres_list" in p.cells && "original_language" in p.cells
    ensures forall j :: 0 <= j < |Output(p, env).names| && Output(p, env).names[j] in Passthrough ==>
              Output(p, env).names[j] in p.cells && Output(p, env).data[j] == p.cells[Output(p, env).names[j]]
    ensures forall c :: c in Passthrough ==> (c in Output(p, env).names <==> c in p.names)
  {
    var t := Output(p, env);
    var base := PresentIn(Passthrough, p.names);
    var b := BaseBlock(p, base);
    var g, l := GenreBlock(p, env), LanguageBlock(p, env);
    OutputLayout(p, env);
    IndicatorNamesAreNotPassthrough("genre_", GenreVocabulary(p, env), LabelText(env.show));
    IndicatorNamesAreNotPassthrough("lang_", LanguageVocabulary(p, env), LabelText(env.show));
    forall j | 0 <= j < |t.names| && t.names[j] in Passthrough
      ensures t.names[j] in p.cells && t.data[j] == p.cells[t.names[j]]
    {
      if j >= |base| {
        assert false;
      }
      assert t.names[j] == base[j] && t.data[j] == b.data[j];
    }
    forall c | c in Passthrough ensures c in t.names <==> c in p.names {
      assert c !in g.names && c !in l.names;
    }
  }

  /** The table's columns are the passthrough columns the input has (id,
      original_title, overview), then budget_norm and adult, then one
      `genre_` column per genre seen in any row, then one `lang_` column per
      language; it has a row per input row. */
  lemma FeaturesShape(s: FrameState, env: Env)
    requires Consistent(s) && Features(s, env).Ok?
    ensures Features(s, env).value.rows == s.rows
    ensures Features(s, env).value.names ==
              BaseColumnsOf(s)
              + ColumnNames("genre_", GenreVocabularyOf(s, env), LabelText(env.show))
              + ColumnNames("lang_", LanguageVocabularyOf(s, env), LabelText(env.show))
  {
    FeaturesOk(s, env);
    var p := Prepared(s, env).value;
    VocabulariesFromInput(s, env);
    BaseColumnsOfPrepared(s, env);
    OutputLayout(p, env);
  }

  lemma {:induction false} PassthroughOfStored(s: FrameState, env: Env, p: FrameState)
    requires Consistent(s) && Consistent(p) && "genres_list" in p.cells && "original_language" in p.cells
    requires forall c :: c in p.names <==> c in s.names || c in AssignedColumns
    requires forall c :: c in s.cells && c !in AssignedColumns ==> p.cells[c] == s.cells[c]
    ensures forall c :: c in ["id", "original_title", "overview"] ==> (c in Output(p, env).names <==> c in s.names)
    ensures forall j :: 0 <= j < |Output(p, env).names| && Output(p, env).names[j] in ["id", "original_title", "overview"] ==>
              Output(p, env).names[j] in s.cells && Output(p, env).data[j] == s.cells[Output(p, env).names[j]]
  {
    var t := Output(p, env);
    OutputPassthrough(p, env);
    var kept: seq<string> := ["id", "original_title", "overview"];
    forall c | c in kept ensures c in t.names <==> c in s.names {
      KeptNotAssigned(c);
      assert c in Passthrough;
    }
    forall j | 0 <= j < |t.names| && t.names[j] in kept ensures t.names[j] in s.cells && t.data[j] == s.cells[t.names[j]] {
      var c := t.names[j];
      KeptNotAssigned(c);
      assert c in Passthrough;
      assert c in p.cells && c in s.names;
    }
  }

  /** id, original_title and overview are carried over unchanged when the input
      has them and absent otherwise; adult is always there, holding
      `coerce_adult` of the input's adult column (all False if it had none). */
  lemma PassthroughAndAdult(s: FrameState, env: Env)
    requires Consistent(s) && Features(s, env).Ok?
    ensures forall c :: c in ["id", "original_title", "overview"] ==>
              (c in Features(s, env).value.names <==> c in s.names)
    ensures forall j :: 0 <= j < |Features(s, env).value.names| && Features(s, env).value.names[j] in ["id", "original_title", "overview"] ==>
              Features(s, env).value.names[j] in s.cells && Features(s, env).value.data[j] == s.cells[Features(s, env).value.names[j]]
    ensures "adult" in Features(s, env).value.names
    ensures forall j :: 0 <= j < |Features(s, env).value.names| && Features(s, env).value.names[j] == "adult" ==>
              Features(s, env).value.data[j] == AdultColumn(Column(s, "adult", PyBool(false)))
  {
    FeaturesOk(s, env);
    var p := Prepared(s, env).value;
    PreparedFacts(s, env);
    OutputPassthrough(p, env);
    PassthroughOfStored(s, env, p);
  }

  /** budget_norm is always there and holds the fitted scaler's value of each
      row's pre-log budget. */
  lemma BudgetNormKept(s: FrameState, env: Env)
    requires Consistent(s) && Features(s, env).Ok?
    ensures env.scale(PreLogColumn(s, env.parseNumber)).Ok?
    ensures "budget_norm" in Features(s, env).value.names
    ensures forall j :: 0 <= j < |Features(s, env).value.names| && Features(s, env).value.names[j] == "budget_norm" ==>
              Features(s, env).value.data[j] == BudgetNormColumn(s, env)
  {
    FeaturesOk(s, env);
    var p := Prepared(s, env).value;
    PreparedFacts(s, env);
    OutputPassthrough(p, env);
  }

  /** Two rows whose budgets parse to zero, or fail to parse, or are missing,
      get the same budget_norm: the model cannot tell them apart. */
  lemma BudgetCollapse(s: FrameState, env: Env, i: nat, k: nat)
    requires Consistent(s) && Features(s, env).Ok? && i < s.rows && k < s.rows
    requires ToNumeric(Column(s, "budget", PyFloat(NaN))[i], env.parseNumber) in {NaN, Finite(0.0)}
    requires ToNumeric(Column(s, "budget", PyFloat(NaN))[k], env.parseNumber) in {NaN, Finite(0.0)}
    ensures forall j :: 0 <= j < |Features(s, env).value.names| && Features(s, env).value.names[j] == "budget_norm" ==>
              Features(s, env).value.data[j][i] == Features(s, env).value.data[j][k]
  {
    BudgetNormKept(s, env);
    var raw := Column(s, "budget", PyFloat(NaN));
    ZeroAndMissingCollapse(raw[i], raw[k], env.parseNumber);
    assert PreLogColumn(s, env.parseNumber)[i] == PreLogColumn(s, env.parseNumber)[k];
  }

  /** The `genre_` column of genre `v`: 1 in the rows that name `v`, 0 elsewhere. */
  function GenreIndicator(s: FrameState, env: Env, v: Value): (col: seq<Value>)
    requires Consistent(s)
    ensures |col| == s.rows
  {
    seq(s.rows, k requires 0 <= k < s.rows => PyInt(if v in RowGenres(s, env, k) then 1 else 0))
  }

  /** The `lang_` column of language `v`: 1 in the rows whose filled language is `v`, 0 elsewhere. */
  function LanguageIndicator(s: FrameState, v: Value): (col: seq<Value>)
    requires Consistent(s)
    ensures |col| == s.rows
  {
    seq(s.rows, k requires 0 <= k < s.rows => PyInt(if v == RowLanguage(s, k) then 1 else 0))
  }

  /** The genre block as the model expects it: one indicator column per genre
      of the vocabulary, in vocabulary order. */
  function GenreIndicators(s: FrameState, env: Env): (cols: seq<seq<Value>>)
    requires Consistent(s)
    ensures |cols| == |GenreVocabularyOf(s, env)|
  {
    var V := GenreVocabularyOf(s, env);
    seq(|V|, jj requires 0 <= jj < |V| => GenreIndicator(s, env, V[jj]))
  }

  /** The language block as the model expects it: one indicator column per
      language of the vocabulary, in vocabulary order. */
  function LanguageIndicators(s: FrameState, env: Env): (cols: seq<seq<Value>>)
    requires Consistent(s)
    ensures |cols| == |LanguageVocabularyOf(s, env)|
  {
    var V := LanguageVocabularyOf(s, env);
    seq(|V|, jj requires 0 <= jj < |V| => LanguageIndicator(s, V[jj]))
  }

  lemma GenreBlockColumn(s: FrameState, env: Env, p: FrameState, j: nat)
    requires Consistent(s) && Consistent(p) && p.rows == s.rows && "genres_list" in p.cells
    requires GenreListsOf(p) == RowGenreLists(s, env)
    requires j < |GenreVocabulary(p, env)|
    ensures GenreBlock(p, env).data[j] == GenreIndicator(s, env, GenreVocabulary(p, env)[j])
  {
    var lists, V := GenreListsOf(p), GenreVocabulary(p, env);
    forall k | 0 <= k < s.rows ensures GenreBlock(p, env).data[j][k] == GenreIndicator(s, env, V[j])[k] {
      assert GenreBlock(p, env).data[j][k] == PyInt(MultiLabel(lists, V)[k][j]);
      assert MultiLabel(lists, V)[k] == MultiLabelRow(lists[k], V);
      assert lists[k] == RowGenres(s, env, k);
    }
  }

  lemma LanguageBlockColumn(s: FrameState, env: Env, p: FrameState, j: nat)
    requires Consistent(s) && Consistent(p) && p.rows == s.rows && "original_language" in p.cells
    requires p.cells["original_language"] == LanguageColumn(Column(s, "original_language", PyStr("unknown")))
    requires j < |LanguageVocabulary(p, env)|
    ensures LanguageBlock(p, env).data[j] == LanguageIndicator(s, LanguageVocabulary(p, env)[j])
  {
    var langs, V := p.cells["original_language"], LanguageVocabulary(p, env);
    forall k | 0 <= k < s.rows ensures LanguageBlock(p, env).data[j][k] == LanguageIndicator(s, V[j])[k] {
      assert LanguageBlock(p, env).data[j][k] == PyInt(OneHot(langs, V)[k][j]);
      assert OneHot(langs, V)[k] == OneHotRow(langs[k], V);
      assert langs[k] == RowLanguage(s, k);
    }
  }

  /** The genre block of the stored frame is the expected genre block. */
  lemma GenreBlockIsIndicators(s: FrameState, env: Env, p: FrameState)
    requires Consistent(s) && Consistent(p) && p.rows == s.rows && "genres_list" in p.cells
    requires GenreListsOf(p) == RowGenreLists(s, env)
    ensures GenreBlock(p, env).data == GenreIndicators(s, env)
  {
    assert GenreVocabulary(p, env) == GenreVocabularyOf(s, env);
    forall jj | 0 <= jj < |GenreBlock(p, env).data|
      ensures GenreBlock(p, env).data[jj] == GenreIndicators(s, env)[jj]
    {
      GenreBlockColumn(s, env, p, jj);
    }
  }

  /** The language block of the stored frame is the expected language block. */
  lemma LanguageBlockIsIndicators(s: FrameState, env: Env, p: FrameState)
    requires Consistent(s) && Consistent(p) && p.rows == s.rows && "original_language" in p.cells
    requires p.cells["original_language"] == LanguageColumn(Column(s, "original_language", PyStr("unknown")))
    ensures LanguageBlock(p, env).data == LanguageIndicators(s, env)
  {
    assert LanguageVocabulary(p, env) == LanguageVocabularyOf(s, env);
    forall jj | 0 <= jj < |LanguageBlock(p, env).data|
      ensures LanguageBlock(p, env).data[jj] == LanguageIndicators(s, env)[jj]
    {
      LanguageBlockColumn(s, env, p, jj);
    }
  }

  /** With sklearn's fitting, the genre vocabulary lists every genre name seen
      in any row, each once, and nothing else. */
  lemma GenreVocabularyMembers(s: FrameState, env: Env)
    requires Consistent(s) && env.Valid()
    ensures Distinct(GenreVocabularyOf(s, env))
    ensures forall x :: x in GenreVocabularyOf(s, env) <==> exists k :: 0 <= k < s.rows && x in RowGenres(s, env, k)
  {
    var V := GenreVocabularyOf(s, env);
    var lists := RowGenreLists(s, env);
    assert IsVocabulary(V, set x | x in Flatten(lists));
    forall x ensures x in V <==> exists k :: 0 <= k < s.rows && x in RowGenres(s, env, k) {
      if x in V {
        var k :| 0 <= k < |lists| && x in lists[k];
        assert lists[k] == RowGenres(s, env, k);
      } else {
        forall k | 0 <= k < s.rows ensures x !in RowGenres(s, env, k) {
          assert lists[k] == RowGenres(s, env, k);
        }
      }
    }
  }

  /** With sklearn's fitting, the language vocabulary lists every filled
      language of any row, each once, and nothing else. */
  lemma LanguageVocabularyMembers(s: FrameState, env: Env)
    requires Consistent(s) && env.Valid()
    ensures Distinct(LanguageVocabularyOf(s, env))
    ensures forall x :: x in LanguageVocabularyOf(s, env) <==> exists k :: 0 <= k < s.rows && x == RowLanguage(s, k)
  {
    var V := LanguageVocabularyOf(s, env);
    var langs := LanguageColumn(Column(s, "original_language", PyStr("unknown")));
    assert IsVocabulary(V, set x | x in langs);
    forall x ensures x in V <==> exists k :: 0 <= k < s.rows && x == RowLanguage(s, k) {
      if x in V {
        var k :| 0 <= k < |langs| && x == langs[k];
        assert x == RowLanguage(s, k);
      } else {
        forall k | 0 <= k < s.rows ensures x != RowLanguage(s, k) {
          assert langs[k] == RowLanguage(s, k);
        }
      }
    }
  }

  /** After the passthrough columns, the feature table holds exactly the genre
      block and then the language block: the column of genre `v` is 1 in the
      rows that name `v`, the column of language `v` is 1 in the rows whose
      filled language is `v`, and every other cell of those blocks is 0. */
  lemma IndicatorColumns(s: FrameState, env: Env)
    requires Consistent(s) && Features(s, env).Ok?
    ensures |BaseColumnsOf(s)| <= |Features(s, env).value.data|
    ensures Features(s, env).value.data[|BaseColumnsOf(s)|..] == GenreIndicators(s, env) + LanguageIndicators(s, env)
  {
    FeaturesOk(s, env);
    var p := Prepared(s, env).value;
    PreparedFacts(s, env);
    VocabulariesFromInput(s, env);
    BaseColumnsOfPrepared(s, env);
    var bd, gd, ld := BaseBlock(p, PresentIn(Passthrough, p.names)).data, GenreBlock(p, env).data, LanguageBlock(p, env).data;
    OutputLayout(p, env);
    GenreBlockIsIndicators(s, env, p);
    LanguageBlockIsIndicators(s, env, p);
    DropFirst(Features(s, env).value.data, |BaseColumnsOf(s)|, bd, gd, ld);
  }

  /** A row's 1s in the genre block count its distinct genre names: a genre
      listed twice is marked once. */
  lemma GenreRowCount(s: FrameState, env: Env, i: nat)
    requires Consistent(s) && env.Valid() && i < s.rows
    ensures Sum(MultiLabelRow(RowGenres(s, env, i), GenreVocabularyOf(s, env))) == |set x | x in RowGenres(s, env, i)|
  {
    GenreVocabularyMembers(s, env);
    MultiLabelCountsDistinctLabels(RowGenres(s, env, i), GenreVocabularyOf(s, env));
  }

  /** Every row's filled language is never missing and is in the vocabulary, so
      its one-hot row holds exactly one 1. */
  lemma LanguageRowExactlyOne(s: FrameState, env: Env, i: nat)
    requires Consistent(s) && env.Valid() && i < s.rows
    ensures !IsMissing(RowLanguage(s, i)) && RowLanguage(s, i) in LanguageVocabularyOf(s, env)
    ensures Sum(OneHotRow(RowLanguage(s, i), LanguageVocabularyOf(s, env))) == 1
  {
    LanguageVocabularyMembers(s, env);
    OneHotExactlyOne(RowLanguage(s, i), LanguageVocabularyOf(s, env));
  }
}
