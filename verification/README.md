# Movie metadata preprocessing, modelled in Dafny

`first.py` turns a TMDB-like movie table into a table of machine-learning
features:

- the raw `genres` cell becomes a list of genre names (`extract_genre_names`);
- the `adult` cell becomes a strict bool (`coerce_adult`);
- the budget is parsed, a zero budget is treated as missing, missing is filled
  with 0, and the result is log-scaled and min-max scaled into `budget_norm`;
  a budget column of bools holding both True and False makes `log1p` raise
  `TypeError`;
- the language is one-hot encoded into `lang_` columns after missing values
  become `"unknown"`;
- the genre lists are multi-label encoded into `genre_` columns;
- the passthrough columns that exist (`id`, `original_title`, `overview`,
  `budget_norm`, `adult`) are glued side by side with the genre and language
  blocks.

The project models that core.

- `py_values.dfy` (module `PyValues`) holds the Python values a cell can hold.
  A float is `Finite`, `Infinite` or `NaN`, so that a missing cell stays
  visible. It also holds `Option`, `Result` and the exceptions the model
  names: the parser's, `TypeError`, and the `OverflowError` of an integer
  label too wide for an int64 array. A foreign call that raises anything
  else returns one of these in its place.
- `genres.dfy` (module `Genres`) models `extract_genre_names`.
  `ast.literal_eval` is a parameter that returns a value or raises one of
  those exceptions. Only `ValueError` and `SyntaxError` are caught, so any
  other exception is the function's result (`Err`).
- `adult.dfy` (module `Adult`) models `coerce_adult`. It defines
  `str.strip()` over Python's whitespace characters and `str.lower()`.
- `budget.dfy` (module `Budget`) models the discrete part of the budget: it
  stops at the value handed to `log1p`. It tells a bool column, which
  `pd.to_numeric` returns as it is, from any other column.
- `encoders.dfy` (module `Encoders`) models one-hot and multi-label encoding
  once a vocabulary is given, together with the column names.
- `assembly.dfy` (module `Assembly`) covers the assembly:
  - the column-oriented `Table`;
  - the `base_cols` loop (`BaseColumns`, a method with a `for` loop);
  - selection, the indicator frames and `pd.concat(axis=1)`. A shorter frame
    is padded with NaN, as pandas aligns by index.
- `preprocess.dfy` (module `Preprocess`) models `preprocess` itself.
  - The `movies` frame is a class `Frame` whose column names and cells are
    reassigned in place.
  - `Frame.AssignWhere` is the masked `.loc` assignment, as a loop.
  - `ApplyBudget` and `ApplyFeatures` are the two runs of in-place updates.
  - `Encode` fits the language encoder, then the genre encoder, and
    assembles the feature table.
  - `Preprocess` is the method that performs all of them.
  - Each method is proved against pure functions of the frame state:
    `WithBudget`, `WithFeatures` and `Prepared` for the updates, `Encoded`
    and `Output` for the fits and the assembled table, and `Features` for
    the whole call.
  - Lemmas then state, in terms of the INPUT frame, what the updates leave
    behind and at which stage the call raises.
- `feature_properties.dfy` (module `FeatureProperties`) states what the
  feature table says about the input table:
  - its exact column list and its row count;
  - which passthrough columns appear, and that they are carried over
    unchanged;
  - the `adult` and `budget_norm` columns;
  - every `genre_` and `lang_` column as a 0/1 indicator of the input rows;
  - the per-row counts of 1s;
  - which inputs make `preprocess` raise, and what it raises.

The foreign calls are the fields of `Preprocess.Env`:

- `literalEval` is `ast.literal_eval`.
- `parseNumber` is the number parser behind `pd.to_numeric(errors="coerce")`
  for cells that are neither missing nor numbers; bools are numbers.
- `scale` is `np.log1p` followed by fitting `MinMaxScaler`. It gives the
  fitted transform, or the exception the fit raises.
- `order` is the order sklearn gives a fitted vocabulary.
- `fitError` is the exception an encoder's fit raises on a set of labels, if
  any. sklearn hashes every label and sorts the distinct ones.
- `show` is `str()` of a non-string label.

`Env.Valid()` says that `order` lists every observed category exactly once,
and that a fit over a label that cannot be hashed (a list or a dict) raises
`TypeError`. The vocabulary and unhashable-label lemmas assume it; the shape
and cell lemmas do not need it.

## Model

| member | source | states |
|---|---|---|
| Genres.DictGet | first.py:23 | `g.get("name", "")`: when some item has the key, the result is the value of the last item with that key, as a dict keeps the last of repeated keys; otherwise it is the default |
| Genres.HasName | first.py:23 | the filter `isinstance(g, dict) and "name" in g` admits only dicts, and a dict it rejects is one whose `get("name", "")` would give the default |
| Genres.NamesOf | first.py:21-23 | the comprehension keeps a name for every element that is a dict with a `"name"` key, and nothing that does not come from such an element; it is never longer than the list |
| Genres.NamesOfAppend | first.py:23 | the comprehension keeps input order: the names of `a + b` are the names of `a` followed by those of `b` |
| Genres.NamesOfAllNamed | first.py:23 | a list of named mappings yields exactly their names, position by position |
| Genres.NamesOfNoneNamed | first.py:23 | a list without any named mapping yields `[]` |
| Genres.Caught | first.py:32 | `except (ValueError, SyntaxError)` lets exactly `TypeError`, `RecursionError`, `MemoryError` and `OverflowError` escape |
| Genres.ExtractGenreNames | first.py:13-36 | a list gives its names; text is parsed, and a parsed list gives its names while any other parse result gives `[]`; a `ValueError` or `SyntaxError` from the parser gives `[]`; any other parser exception escapes, and that is the only way to fail; any other cell gives `[]` |
| Genres.ExtractParseFailure | first.py:27-34 | text the parser rejects with `ValueError` or `SyntaxError` gives `[]`; text it rejects with any other exception raises that exception |
| Genres.ExtractAnimation | first.py:27-31 | the text `[{"id": 16, "name": "Animation"}]` gives `["Animation"]` |
| Genres.ExtractListName | first.py:27-31 | the text `[{"name": ["Drama"]}]` gives the genre name `["Drama"]`, a list, which cannot be hashed |
| Genres.RepeatedNameKeepsLast | first.py:23 | a dict that repeats `"name"` names its last value |
| Genres.ExtractWithoutName | first.py:21-23 | a list holding a mapping without `"name"` gives `[]` |
| Adult.IsSpace | first.py:52 | the whitespace `str.strip()` removes includes space, tab, newline and carriage return, and never a letter or digit; by definition it is CPython's whitespace set |
| Adult.TrimLeft | first.py:52 | `lstrip`: no longer than the input, everything cut is whitespace, and the result does not start with whitespace |
| Adult.TrimLeftIsSuffix | first.py:52 | what `lstrip` leaves is a suffix of the input |
| Adult.TrimRight | first.py:52 | `rstrip`: no longer than the input, everything cut is whitespace, and the result does not end with whitespace |
| Adult.TrimRightIsPrefix | first.py:52 | what `rstrip` leaves is a prefix of the input |
| Adult.Strip | first.py:52 | `strip`: the result is no longer than the input and neither starts nor ends with whitespace |
| Adult.LowerChar | first.py:52 | `lower()` on one character: the result is never an ASCII capital, a capital becomes a small letter, and anything else is kept |
| Adult.Lower | first.py:52 | `lower()` leaves no ASCII capital; in this model, which lower-cases ASCII only, it keeps the length |
| Adult.StripIsSlice | first.py:52 | the stripped text is the contiguous slice `s[i..j]`, and only whitespace lies before `i` and after `j` |
| Adult.StripTrimmed | first.py:52 | text with no whitespace at either end is its own strip |
| Adult.LowerPreservesSpace | first.py:52 | lower-casing keeps the length and changes no character into or out of whitespace |
| Adult.LowerIdempotent | first.py:52 | lower-casing twice is lower-casing once |
| Adult.NormalFormStable | first.py:52 | the trimmed, lower-cased form is a fixed point of trimming and lower-casing |
| Adult.CoerceAdult | first.py:39-57 | a bool is returned unchanged; an int is true iff nonzero; a float is true iff it is not zero, so NaN and the infinities are true; text is true iff its trimmed, lower-cased form is one of `true t 1 yes y`; every other value is false |
| Adult.WordSetsDisjoint | first.py:53-56 | no word is both affirmative and negative, so the order of the two text checks never matters |
| Adult.NegativeWordIsFalse | first.py:55-56 | text whose normal form is one of `false f 0 no n` coerces to false |
| Adult.CoerceAdultNormalized | first.py:51-57 | coercion of text depends only on its trimmed, lower-cased form |
| Adult.MissingCellsDisagree | first.py:47-50 | a NaN cell (how pandas stores an empty CSV cell) coerces to True, while None coerces to False |
| Adult.PaddedYesIsAdult | first.py:51-54 | `" Yes "` coerces to True |
| Adult.NoIsNotAdult | first.py:51-56 | `"no"` coerces to False |
| Budget.ToNumeric | first.py:89 | `pd.to_numeric(errors="coerce")` on one cell of a column that is not all bools: a missing cell gives NaN, a bool 1 or 0, an int its exact value, a float itself; by definition any other cell goes to the number parser, and NaN when it fails |
| Budget.IsZero | first.py:91 | the mask `movies["budget"] == 0` holds only for a float that is false or for `False`; on a bool it holds exactly for `False`; it never holds for a missing cell (NaN is not equal to 0) |
| Budget.MixedBools | first.py:89-92 | a column holds both True and False exactly when it is all bools and two of its cells differ |
| Budget.BothBools | first.py:89-92 | in a bool column, holding both True and False is the same as holding two different cells |
| Budget.FillZero | first.py:92 | `fillna(0)` on one float cell is never NaN, is 0 exactly for NaN or zero, and otherwise keeps the float |
| Budget.PreLogBudget | first.py:89-92 | the pre-log budget is never NaN; it is 0 exactly when the parsed budget is missing, unparseable or zero; otherwise it equals the parsed budget |
| Budget.ZeroAndMissingCollapse | first.py:89-92 | a zero budget and a missing or unparseable one end with the same pre-log value, 0 |
| Budget.MissingBudgetIsZero | first.py:89-92 | a missing cell (None or NaN) has pre-log budget 0 |
| Encoders.Flatten | first.py:108 | every label of every row is among the flattened labels, and every flattened label comes from some row |
| Encoders.MultiLabelRow | first.py:108 | one row of `MultiLabelBinarizer` has one 0/1 entry per vocabulary label; by definition the 1s are where the label is in the row |
| Encoders.MultiLabel | first.py:108 | one row per genre list, each as wide as the vocabulary; by definition row `i` is the encoding of list `i` |
| Encoders.OneHotRow | first.py:102 | one row of `OneHotEncoder` has one 0/1 entry per vocabulary category; by definition the 1 is where the category is |
| Encoders.OneHot | first.py:102 | one row per language, each as wide as the vocabulary; by definition row `i` is the encoding of language `i` |
| Encoders.ColumnNames | first.py:103-109 | one column name per vocabulary entry (the `lang_` names of line 103 and the `genre_` names of line 109); by definition each is the prefix followed by the label's text |
| Encoders.MultiLabelRowMarks | first.py:107-110 | a row has a 1 in column `j` iff `vocab[j]` is among its labels, so a row with no labels is all zeros |
| Encoders.MultiLabelRowSum | first.py:107-110 | with a distinct vocabulary, the 1s of a row count the distinct labels of that row that the vocabulary knows |
| Encoders.MultiLabelCountsDistinctLabels | first.py:107-110 | when the vocabulary covers the row, the 1s count the distinct labels: duplicates collapse to one 1 |
| Encoders.MultiLabelRowSetOnly | first.py:107-110 | a row's encoding depends only on the set of its labels |
| Encoders.OneHotIsSingleLabel | first.py:100-104 | a one-hot row is the multi-label row of the one-category list |
| Encoders.OneHotExactlyOne | first.py:100-104 | a category in a distinct vocabulary gives exactly one 1, in its own column |
| Encoders.OneHotUnknownIsZero | first.py:67 | with `handle_unknown="ignore"`, a category outside the vocabulary gives an all-zero row |
| Assembly.PresentIn | first.py:113-116 | the filter keeps exactly the wanted names that are present and is no longer than the wanted list |
| Assembly.PresentInAppend | first.py:113-116 | the filter keeps the order of the wanted list: it distributes over concatenation |
| Assembly.PresentInDistinct | first.py:113-116 | filtering a list without repetitions gives a list without repetitions |
| Assembly.PresentInAll | first.py:113-116 | filtering by a frame that has every wanted name keeps the whole list |
| Assembly.BaseColumns | first.py:113-116 | the `base_cols` loop builds the passthrough names present in the frame, in passthrough order |
| Assembly.Select | first.py:120 | `movies[base_cols]` has those names, in that order, and each column holds the frame's cells |
| Assembly.Indicators | first.py:104 | the uint8 frame of an indicator matrix holds cell `(i, j)` of the matrix in row `i` of column `j` |
| Assembly.Pad | first.py:118-125 | the alignment `concat` does: a frame made taller keeps its names and its cells, and every new cell is NaN |
| Assembly.Concat | first.py:118-125 | `concat(axis=1)` puts the columns side by side and is as tall as the taller frame |
| Assembly.ConcatCells | first.py:118-125 | every cell keeps its row and column, shifted right for the second frame; rows a shorter frame lacks are NaN |
| Assembly.ConcatAligned | first.py:118-125 | frames of equal height are glued without padding: the columns are those of the first frame followed by those of the second |
| Preprocess.Column | first.py:86 | `movies.get(name, default series)`: the contract gives one cell per row; by definition the cells are the frame's column when it has one, else the default on every row |
| Preprocess.Assigned | first.py:86 | `movies[name] = col`: the column holds `col`, a new name is added, and every other column is unchanged |
| Preprocess.Where | first.py:91 | the contract keeps the column's length; by definition a cell the mask hits takes the value and every other cell is kept |
| Preprocess.GenreLists | first.py:86 | `.apply(extract_genre_names)` succeeds iff every row does, and then row `i` holds row `i`'s names; otherwise it raises the exception of the first row that raises |
| Preprocess.FirstFailureShift | first.py:86 | a first raising cell of `col[1..]` is the first raising cell of `col` when `col[0]` parses |
| Preprocess.ParsedShift | first.py:86 | the genre lists of `col[1..]`, after that of `col[0]`, are the genre lists of `col` |
| Preprocess.NumericColumn | first.py:89 | `pd.to_numeric` on the column keeps its length, and a column that is not all bools becomes floats; by definition a bool column is returned as it is, and every other cell is `ToNumeric` of the input cell |
| Preprocess.Filled | first.py:92 | the contract keeps the column's length; by definition every cell is `FillZero` of the float budget cell |
| Preprocess.LogInput | first.py:92 | what `log1p` gets after `fillna(0)`: it raises exactly when some cell is not a float and some cell is not True (an object column), and then raises `TypeError`; otherwise it gets one value per row, never NaN |
| Preprocess.AdultColumn | first.py:97 | the contract keeps the column's length; by definition every cell is `coerce_adult` of the input cell |
| Preprocess.FillLanguage | first.py:100 | `fillna("unknown")` on one cell: never missing; a missing cell becomes `"unknown"` and any other cell is kept |
| Preprocess.LanguageColumn | first.py:100 | the contract keeps the column's length; by definition every cell is `FillLanguage` of the input cell |
| Preprocess.WithBudget | first.py:86-91 | after the genre and budget updates, `genres_list` holds the lists, `budget` holds the parsed budgets with zeros masked to NaN, and the other columns are unchanged |
| Preprocess.WithFeatures | first.py:94-100 | after the next updates, `budget_norm` holds the scaled budgets, `adult` the coerced flags and `original_language` the filled languages; the other columns are unchanged |
| Preprocess.Prepared | first.py:86-100 | on success the frame is consistent and as tall as the input; by definition it runs the genre parse, the budget updates, `log1p`, the scaler fit and the remaining updates, stopping at the first exception |
| Preprocess.LabelText | first.py:103-109 | `str(label)` in the f-strings: a string label is its own text, and any other label is rendered by `show` |
| Preprocess.GenreLabels | first.py:108 | the labels the genre fit sees are exactly the names in the stored genre lists, each from some row |
| Preprocess.LanguageLabels | first.py:102 | the labels the language fit sees are exactly the filled languages of the rows |
| Preprocess.GenreVocabulary | first.py:108-109 | `mlb.classes_`: under a valid environment, each genre label exactly once and nothing else |
| Preprocess.LanguageVocabulary | first.py:102-103 | `ohe.categories_[0]`: under a valid environment, each language label exactly once and nothing else |
| Preprocess.BaseBlock | first.py:120 | `movies[base_cols]`: a well-formed table as tall as the frame, with exactly the named columns in order, each holding the frame's cells |
| Preprocess.GenreBlock | first.py:107-110 | the genre block is a well-formed table as tall as the frame; by definition one `genre_` indicator column per vocabulary genre |
| Preprocess.LanguageBlock | first.py:100-104 | the language block is a well-formed table as tall as the frame; by definition one `lang_` indicator column per vocabulary language |
| Preprocess.Output | first.py:113-125 | the assembled table is well formed and as tall as the frame; by definition it is the passthrough, genre and language blocks side by side |
| Preprocess.Encoded | first.py:102-125 | on success a well-formed table as tall as the frame; by definition the language fit's exception, else the genre fit's, else the assembled table |
| Preprocess.Features | first.py:72-125 | on success the feature table is well formed and has one row per input row |
| Preprocess.FeaturesOk | first.py:86-125 | a run that returns a table went through every update and both fits, and returns the assembled table of the updated frame |
| Preprocess.EncodedOk | first.py:102-125 | when the fits return a table, neither fit raised and the table is the assembled one |
| Preprocess.PreLog | first.py:89-92 | one pre-log budget per row; by definition row `i` is `PreLogBudget` of cell `i` |
| Preprocess.FloatBudgetSteps | first.py:89-92 | a budget column that is not all bools is parsed to floats, and masking and filling give each row's pre-log budget |
| Preprocess.UniformBoolSteps | first.py:89-92 | a bool column of one value gives each row's pre-log budget: all False are masked to NaN and filled to 0, all True stay a bool column read as 1 |
| Preprocess.MixedBoolSteps | first.py:89-92 | masking a bool column that holds both values leaves True beside NaN, and `log1p` raises `TypeError` |
| Preprocess.BudgetSteps | first.py:89-92 | the budget steps on any column: `TypeError` for a bool column holding both values, and each row's pre-log budget for every other column |
| Preprocess.FilledBudget | first.py:89-92 | parsing, masking and filling the frame's budget column raise `TypeError` at `log1p` when the input's budget is a bool column holding both values, and otherwise give each row's pre-log budget |
| Preprocess.PreparedStages | first.py:86-100 | a successful run parsed every genre cell, had no bool budget holding both values, fitted the scaler, and left the frame given by the two update stages |
| Preprocess.StagesFacts | first.py:86-100 | the two update stages add exactly the five assigned columns, keep every other column, and store the genre lists, the coerced adult flags and the filled languages of the input |
| Preprocess.PreparedFacts | first.py:86-100 | after a successful run, the frame has the input's columns plus the five assigned ones; the others are unchanged; `genres_list`, `adult`, `original_language` and `budget_norm` hold what the input dictates |
| Preprocess.PreparedHasColumns | first.py:86-100 | after the updates, `genres_list` and `original_language` exist |
| Preprocess.OutputLayout | first.py:118-125 | the feature table is the passthrough block, then the genre block, then the language block, with no padding |
| Preprocess.PresentInSameMembers | first.py:113-116 | the passthrough filter depends only on which names are present |
| Preprocess.PassthroughAfterAssignment | first.py:113-116 | once the assigned columns exist, the passthrough names are the input's `id`, `original_title` and `overview` that exist, then `budget_norm` and `adult` |
| Preprocess.BaseColumnsOfPrepared | first.py:113-116 | `base_cols` of the updated frame, stated in terms of the input frame |
| Preprocess.FeaturesErrorStage | first.py:86-94 | the in-place updates fail iff the genre parse raises, or the budget is a bool column holding both values, or the scaler fit raises; `preprocess` then raises the exception of the first of these: the parse's, `TypeError`, or the scaler's |
| Preprocess.FitStages | first.py:100-125 | once the updates succeed, `preprocess` raises the language fit's exception, else the genre fit's, else it returns the assembled table |
| Preprocess.Frame.constructor | first.py:82 | the frame holds the table that was read |
| Preprocess.Frame.Assign | first.py:86 | the new frame state is the old one with that column assigned |
| Preprocess.Frame.AssignWhere | first.py:91 | the loop overwrites exactly the cells the mask selects; the new state is the old one with the masked column assigned |
| Preprocess.ApplyBudget | first.py:86-91 | the in-place genre and budget updates leave the state `WithBudget` describes |
| Preprocess.ApplyFeatures | first.py:94-100 | the in-place budget_norm, adult and language updates leave the state `WithFeatures` describes |
| Preprocess.Encode | first.py:100-125 | the method fits the language encoder, then the genre encoder, and assembles the table; its result is `Encoded` of the frame |
| Preprocess.Preprocess | first.py:72-125 | the result is the feature table of the frame as it was on entry, or the exception that stops it; once the updates succeed the frame holds every update, whether or not an encoder fit then raises; on a genre exception it is untouched; on a `log1p` or scaler exception it holds the genre and budget updates |
| FeatureProperties.StoredGenreLists | first.py:86-108 | the lists the genre encoder reads are the genre names of the input rows |
| FeatureProperties.VocabulariesFromInput | first.py:100-108 | both encoders are fitted on values the input rows determine |
| FeatureProperties.LabelsOfStored | first.py:100-108 | the labels and vocabularies of the updated frame are those of the input rows |
| FeatureProperties.FeaturesFailure | first.py:86-108 | `preprocess` raises iff some genre cell's parse raises an exception other than `ValueError`/`SyntaxError`, or the budget is a bool column holding both True and False, or the scaler fit raises, or the language fit or the genre fit raises on the input's labels |
| FeatureProperties.FeaturesError | first.py:86-108 | the exception is that of the first genre row whose parse raises, else `TypeError` for a bool budget holding both values, else the scaler's, else the language fit's, else the genre fit's |
| FeatureProperties.BoolBudgetRaises | first.py:89-92 | a table whose only column is the bool budget `[True, False]` makes `preprocess` raise `TypeError`, whatever the environment |
| FeatureProperties.TrueBudgetIsOne | first.py:89-92 | a budget column of True cells only does not raise, and every row's pre-log budget is 1 |
| FeatureProperties.InputFitStages | first.py:100-108 | once the updates succeed, the language fit's exception, else the genre fit's, is raised, with both fits over the labels of the input rows |
| FeatureProperties.UnhashableGenreRaises | first.py:108 | a genre name that is a list or a dict makes `preprocess` raise; the exception is `TypeError` when the genre parse, the budget steps, the scaler and the language fit succeed |
| FeatureProperties.UnhashableLanguageRaises | first.py:102 | a filled language that is a list or a dict makes `preprocess` raise; the exception is `TypeError` when the genre parse, the budget steps and the scaler succeed |
| FeatureProperties.IndicatorNamesAreNotPassthrough | first.py:103-109 | no `genre_` or `lang_` column is named like a passthrough column |
| FeatureProperties.IndicatorGroupsDisjoint | first.py:103-109 | a `genre_` column and a `lang_` column never share a name |
| FeatureProperties.OutputPassthrough | first.py:113-125 | in the assembled table, a passthrough name labels the stored column of that name, and it appears exactly when the frame has it |
| FeatureProperties.FeaturesShape | first.py:113-125 | the output columns are the present `id`/`original_title`/`overview`, then `budget_norm` and `adult`, then one `genre_` column per vocabulary genre, then one `lang_` column per vocabulary language; the row count equals the input's |
| FeatureProperties.PassthroughOfStored | first.py:113-120 | `id`, `original_title` and `overview` appear exactly when the input has them, and hold the input's cells |
| FeatureProperties.PassthroughAndAdult | first.py:97-120 | `id`, `original_title` and `overview` appear iff the input has them and are carried over unchanged; `adult` is always there and holds `coerce_adult` of the input's column (all False when it had none) |
| FeatureProperties.BudgetNormKept | first.py:89-94 | `budget_norm` is always there and holds the fitted scaler's value of each row's pre-log budget |
| FeatureProperties.BudgetCollapse | first.py:89-94 | two rows whose budgets are zero, missing or unparseable get the same `budget_norm` |
| FeatureProperties.GenreBlockColumn | first.py:107-110 | column `j` of the genre block is 1 exactly in the rows that name genre `j` |
| FeatureProperties.LanguageBlockColumn | first.py:100-104 | column `j` of the language block is 1 exactly in the rows whose filled language is language `j` |
| FeatureProperties.GenreBlockIsIndicators | first.py:107-110 | the genre block is the expected indicator columns |
| FeatureProperties.LanguageBlockIsIndicators | first.py:100-104 | the language block is the expected indicator columns |
| FeatureProperties.GenreVocabularyMembers | first.py:107-109 | the genre vocabulary lists each genre name of any row exactly once, and nothing else |
| FeatureProperties.LanguageVocabularyMembers | first.py:100-103 | the language vocabulary lists each filled language of any row exactly once, and nothing else |
| FeatureProperties.IndicatorColumns | first.py:100-125 | after the passthrough columns, the feature table is exactly the genre indicator columns followed by the language indicator columns |
| FeatureProperties.GenreRowCount | first.py:107-110 | a row's 1s in the genre block count its distinct genre names |
| FeatureProperties.LanguageRowExactlyOne | first.py:100-104 | every row's filled language is not missing, is in the vocabulary, and gets exactly one 1 |

## Left out

- Reading the CSV (first.py:82) and writing CSV or Parquet, with the Parquet-to-CSV fallback (first.py:127-142): file I/O. `Preprocess.Preprocess` returns the table instead.
- The genre plot (first.py:144-163): matplotlib rendering.
- `parse_args` and the `__main__` block (first.py:166-196): command-line glue.
- `print` logging throughout: no effect on the data.
- `build_one_hot_encoder` (first.py:60-69) only works around an sklearn version difference. The model fixes its result: a dense encoder that ignores unknown categories.
- `np.log1p` and `MinMaxScaler` (first.py:92-94): floating-point numerics inside numpy and sklearn. They are the `scale` parameter, and `budget_norm` holds whatever its fitted transform returns.
- `ast.literal_eval` (first.py:29) and the parser inside `pd.to_numeric` (first.py:89): foreign parsers. They are the `literalEval` and `parseNumber` parameters.
- The order of a fitted vocabulary is the `order` parameter; sklearn sorts the categories.
  - Whether a fit raises is the `fitError` parameter. `Env.Valid()` fixes it only for labels that are lists or dicts, which raise `TypeError`. Other failures are whatever `fitError` says: a sort over labels of mixed types (a number among strings), or a `PyOther` label that cannot be hashed.
  - `str()` of a non-string label is the `show` parameter.
- Python equality across types is not modelled: values are compared by constructor, so `1`, `1.0` and `True` are different labels, keys and categories.
- Adult.LowerChar: only ASCII letters are lower-cased; `str.lower` on other scripts is not modelled.
- Adult.Lower: keeps the length, which Python's does not (`"İ".lower()` has two characters). No `coerce_adult` result changes: only U+0130 and U+212A lower to ASCII letters, to `i` and `k`, and neither letter occurs in the ten words.
- The `except Exception` of first.py:24-25 is not modelled. It fires only when testing or reading an element raises: an `isinstance` check, a `"name" in g` test (a dict subclass, or a key whose hash collides with `"name"` and whose `__eq__` raises) or a `get`. Python then returns `[]` for the whole list, while `NamesOf` returns the names. The model's values cannot raise there.
- Mapping types other than plain dicts are not modelled.
- Values outside `Value` are one `PyOther`: tuples, sets, bytes, numpy scalars.
- Integer budgets are read as exact reals: float64 rounding of huge integers is not modelled.
- Budget.ToNumeric: a bool column is taken to upcast to objects when first.py:91 writes NaN into it, as pandas 2 does, so the `TypeError` comes from `log1p` at first.py:92 and the frame holds the masked column. A pandas that refuses the upcast raises `TypeError` at first.py:91 instead, and then for a bool column with any False cell, including one of False only.
- Budget.ToNumeric: the dtype a column is read with is taken from its cells. A column of bools only is a bool column; any other column with a bool in it is an object column, whose bools become 1.0 and 0.0.
- The genre fit's integer array (first.py:108): when every genre label is an int or a bool, `MultiLabelBinarizer` stores the labels in an int64 array. An int outside int64 then raises `OverflowError`, which `fitError` may return but `Env.Valid()` does not force, since `fitError` stands for both fits. A bool label is then named by its int value (`genre_1` for True), which `show` does not capture.
- The frame's index is taken to be the default 0..n-1 that `read_csv` gives, so `reset_index(drop=True)` changes nothing and `concat` aligns by position.
- Resource exhaustion by the parser (`RecursionError`, `MemoryError`) is only an exception the `literalEval` parameter may return.
