/** The genre-list extractor: turns a raw `genres` cell into the ordered list
    of the `"name"` values of its category mappings. */
module Genres {
  import opened PyValues

  /** `d.get(key, default)` on the dict built from `entries`: the value of the
      last pair with that key, or the default when no pair has it. */
  function DictGet(entries: seq<(Value, Value)>, key: Value, default: Value): (r: Value)
    ensures (exists k :: 0 <= k < |entries| && entries[k].0 == key) ==>
              exists k :: 0 <= k < |entries| && entries[k] == (key, r)
                          && forall m :: k < m < |entries| ==> entries[m].0 != key
    ensures (forall k :: 0 <= k < |entries| ==> entries[k].0 != key) ==> r == default
  {
    if entries == [] then default
    else
      var n := |entries| - 1;
      if entries[n].0 == key then entries[n].1
      else
        var init := entries[..n];
        var r := DictGet(init, key, default);
        assert forall k :: 0 <= k < n ==> entries[k] == init[k];
        r
  }

  /** `isinstance(g, dict) and "name" in g` */
  predicate HasName(g: Value): (b: bool)
    ensures b ==> g.PyDict?
    ensures g.PyDict? && !b ==> NameOf(g) == PyStr("")
  {
    g.PyDict? && exists k :: 0 <= k < |g.entries| && g.entries[k].0 == PyStr("name")
  }

  /** `g.get("name", "")` */
  function NameOf(g: Value): Value
    requires g.PyDict?
  {
    DictGet(g.entries, PyStr("name"), PyStr(""))
  }

  /** The list comprehension of first.py: the name of every element that is a
      dict holding a "name" key, in order; every other element is skipped. */
  function NamesOf(items: seq<Value>): (names: seq<Value>)
    ensures |names| <= |items|
    ensures forall g :: g in items && HasName(g) ==> NameOf(g) in names
    ensures forall x :: x in names ==> exists g :: g in items && HasName(g) && NameOf(g) == x
  {
    if items == [] then []
    else
      var rest := NamesOf(items[1..]);
      assert forall g :: g in items[1..] ==> g in items;
      if HasName(items[0]) then [NameOf(items[0])] + rest else rest
  }

  /** The comprehension keeps input order: it distributes over concatenation. */
  lemma {:induction false} NamesOfAppend(a: seq<Value>, b: seq<Value>)
    ensures NamesOf(a + b) == NamesOf(a) + NamesOf(b)
  {
    if a == [] {
      assert a + b == b;
    } else {
      assert (a + b)[1..] == a[1..] + b;
      NamesOfAppend(a[1..], b);
    }
  }

  /** A list whose every element is a named mapping yields exactly their names, position by position. */
  lemma {:induction false} NamesOfAllNamed(items: seq<Value>)
    requires forall k :: 0 <= k < |items| ==> HasName(items[k])
    ensures |NamesOf(items)| == |items|
    ensures forall k :: 0 <= k < |items| ==> NamesOf(items)[k] == NameOf(items[k])
  {
    if items != [] {
      NamesOfAllNamed(items[1..]);
    }
  }

  /** A list without any named mapping yields no names. */
  lemma {:induction false} NamesOfNoneNamed(items: seq<Value>)
    requires forall k :: 0 <= k < |items| ==> !HasName(items[k])
    ensures NamesOf(items) == []
  {
    if items != [] {
      NamesOfNoneNamed(items[1..]);
    }
  }

  /** The exceptions `except (ValueError, SyntaxError)` catches. */
  predicate Caught(e: Exception): (b: bool)
    ensures !b <==> e in {TypeError, RecursionError, MemoryError, OverflowError}
  {
    e == ValueError || e == SyntaxError
  }

  /** `extract_genre_names`. `literalEval` is `ast.literal_eval`, which either
      returns a value or raises. */
  function ExtractGenreNames(cell: Value, literalEval: string -> Result<Value, Exception>): (r: Result<seq<Value>, Exception>)
    ensures r.Err? <==> cell.PyStr? && literalEval(cell.s).Err? && !Caught(literalEval(cell.s).error)
    ensures r.Err? ==> r.error == literalEval(cell.s).error
    ensures cell.PyList? ==> r == Ok(NamesOf(cell.items))
    ensures cell.PyStr? && literalEval(cell.s).Ok? ==>
              r == Ok(if literalEval(cell.s).value.PyList? then NamesOf(literalEval(cell.s).value.items) else [])
    ensures !cell.PyList? && !cell.PyStr? ==> r == Ok([])
  {
    match cell
    case PyList(items) => Ok(NamesOf(items))
    case PyStr(s) =>
      (match literalEval(s)
       case Ok(parsed) => if parsed.PyList? then Ok(NamesOf(parsed.items)) else Ok([])
       case Err(e) => if Caught(e) then Ok([]) else Err(e))
    case _ => Ok([])
  }

  /** A text cell the parser rejects with ValueError or SyntaxError yields no
      genres; any other exception of the parser escapes. */
  lemma ExtractParseFailure(s: string, literalEval: string -> Result<Value, Exception>, e: Exception)
    requires literalEval(s) == Err(e)
    ensures Caught(e) ==> ExtractGenreNames(PyStr(s), literalEval) == Ok([])
    ensures !Caught(e) ==> ExtractGenreNames(PyStr(s), literalEval) == Err(e)
  {
  }

  /** `'[{"id": 16, "name": "Animation"}]'` yields `["Animation"]`. */
  lemma ExtractAnimation(literalEval: string -> Result<Value, Exception>)
    requires literalEval("[{\"id\": 16, \"name\": \"Animation\"}]")
             == Ok(PyList([PyDict([(PyStr("id"), PyInt(16)), (PyStr("name"), PyStr("Animation"))])]))
    ensures ExtractGenreNames(PyStr("[{\"id\": 16, \"name\": \"Animation\"}]"), literalEval)
            == Ok([PyStr("Animation")])
  {
    var g := PyDict([(PyStr("id"), PyInt(16)), (PyStr("name"), PyStr("Animation"))]);
    assert g.entries[1].0 == PyStr("name");
    assert HasName(g);
    assert PyStr("id") != PyStr("name") by { assert "id"[0] != "name"[0]; }
    assert NameOf(g) == PyStr("Animation");
    assert [g][1..] == [];
    assert NamesOf([g]) == [PyStr("Animation")];
  }

  /** `'[{"name": ["Drama"]}]'` yields the list `["Drama"]` as a genre name,
      a label no encoder can hash. */
  lemma ExtractListName(literalEval: string -> Result<Value, Exception>)
    requires literalEval("[{\"name\": [\"Drama\"]}]")
             == Ok(PyList([PyDict([(PyStr("name"), PyList([PyStr("Drama")]))])]))
    ensures ExtractGenreNames(PyStr("[{\"name\": [\"Drama\"]}]"), literalEval)
            == Ok([PyList([PyStr("Drama")])])
    ensures Unhashable(PyList([PyStr("Drama")]))
  {
    var g := PyDict([(PyStr("name"), PyList([PyStr("Drama")]))]);
    assert g.entries[0].0 == PyStr("name");
    assert HasName(g);
    assert NameOf(g) == PyList([PyStr("Drama")]);
    assert [g][1..] == [];
    assert NamesOf([g]) == [PyList([PyStr("Drama")])];
  }

  /** A mapping that repeats the "name" key keeps the last value, as a Python
      dict literal does: `{"name": "Drama", "name": "Comedy"}` names Comedy. */
  lemma RepeatedNameKeepsLast()
    ensures NameOf(PyDict([(PyStr("name"), PyStr("Drama")), (PyStr("name"), PyStr("Comedy"))])) == PyStr("Comedy")
  {
  }

  /** `[{"id": 1}]`, a mapping without a "name" key, yields `[]`. */
  lemma ExtractWithoutName()
    ensures ExtractGenreNames(PyList([PyDict([(PyStr("id"), PyInt(1))])]), _ => Err(SyntaxError)) == Ok([])
  {
    var g := PyDict([(PyStr("id"), PyInt(1))]);
    assert !HasName(g);
  }
}
