/** The two vocabulary encoders: one-hot for the language column and
    multi-label binarisation for the genre lists. A vocabulary is fitted on the
    whole batch; its order is chosen by the caller. */
module Encoders {

  ghost predicate Distinct<T>(xs: seq<T>) {
    forall i, j :: 0 <= i < j < |xs| ==> xs[i] != xs[j]
  }

  /** `vocab` lists every element of `observed` exactly once. */
  ghost predicate IsVocabulary<T(!new)>(vocab: seq<T>, observed: set<T>) {
    Distinct(vocab) && forall x :: x in vocab <==> x in observed
  }

  function Sum(row: seq<int>): int {
    if row == [] then 0 else row[0] + Sum(row[1..])
  }

  /** The labels of all rows, row after row. */
  function Flatten<T>(lists: seq<seq<T>>): (all: seq<T>)
    ensures forall i, x :: 0 <= i < |lists| && x in lists[i] ==> x in all
    ensures forall x :: x in all ==> exists i :: 0 <= i < |lists| && x in lists[i]
  {
    if lists == [] then []
    else
      var rest := Flatten(lists[1..]);
      assert forall i :: 1 <= i < |lists| ==> lists[i] == lists[1..][i - 1];
      lists[0] + rest
  }

  /** One row of `MultiLabelBinarizer.transform`. */
  function MultiLabelRow<T(==)>(labels: seq<T>, vocab: seq<T>): (row: seq<int>)
    ensures |row| == |vocab| && forall j :: 0 <= j < |row| ==> row[j] == 0 || row[j] == 1
  {
    seq(|vocab|, j requires 0 <= j < |vocab| => if vocab[j] in labels then 1 else 0)
  }

  /** `MultiLabelBinarizer.fit_transform` once the vocabulary is fixed. */
  function MultiLabel<T(==)>(lists: seq<seq<T>>, vocab: seq<T>): (m: seq<seq<int>>)
    ensures |m| == |lists| && forall i :: 0 <= i < |m| ==> |m[i]| == |vocab|
  {
    seq(|lists|, i requires 0 <= i < |lists| => MultiLabelRow(lists[i], vocab))
  }

  /** One row of `OneHotEncoder.transform`; a category outside the vocabulary
      gives an all-zero row, as `handle_unknown="ignore"` asks. */
  function OneHotRow<T(==)>(category: T, vocab: seq<T>): (row: seq<int>)
    ensures |row| == |vocab| && forall j :: 0 <= j < |row| ==> row[j] == 0 || row[j] == 1
  {
    seq(|vocab|, j requires 0 <= j < |vocab| => if vocab[j] == category then 1 else 0)
  }

  /** `OneHotEncoder.fit_transform` once the vocabulary is fixed. */
  function OneHot<T(==)>(labels: seq<T>, vocab: seq<T>): (m: seq<seq<int>>)
    ensures |m| == |labels| && forall i :: 0 <= i < |m| ==> |m[i]| == |vocab|
  {
    seq(|labels|, i requires 0 <= i < |labels| => OneHotRow(labels[i], vocab))
  }

  /** Column names: a group prefix followed by the category's text. */
  function ColumnNames<T>(prefix: string, vocab: seq<T>, text: T -> string): (names: seq<string>)
    ensures |names| == |vocab|
  {
    seq(|vocab|, j requires 0 <= j < |vocab| => prefix + text(vocab[j]))
  }

  lemma MultiLabelRowCons<T>(labels: seq<T>, vocab: seq<T>)
    requires vocab != []
    ensures MultiLabelRow(labels, vocab) == [if vocab[0] in labels then 1 else 0] + MultiLabelRow(labels, vocab[1..])
  {
  }

  lemma CardinalityCons<T>(L: set<T>, v: T, R: set<T>)
    requires v !in R
    ensures |L * ({v} + R)| == (if v in L then 1 else 0) + |L * R|
  {
    if v in L {
      assert L * ({v} + R) == {v} + L * R;
    } else {
      assert L * ({v} + R) == L * R;
    }
  }

  /** With a distinct vocabulary, the 1s of a multi-label row count the labels
      of that row found in the vocabulary, each label once however often it repeats. */
  lemma {:induction false} MultiLabelRowSum<T>(labels: seq<T>, vocab: seq<T>)
    requires Distinct(vocab)
    ensures Sum(MultiLabelRow(labels, vocab)) == |(set x | x in labels) * (set v | v in vocab)|
  {
    var L := set x | x in labels;
    if vocab == [] {
      assert (set v | v in vocab) == {};
      assert L * {} == {};
    } else {
      var v, rest := vocab[0], vocab[1..];
      var R := set x | x in rest;
      assert Distinct(rest);
      MultiLabelRowSum(labels, rest);
      MultiLabelRowCons(labels, vocab);
      assert (set x | x in vocab) == {v} + R;
      assert v !in R;
      CardinalityCons(L, v, R);
    }
  }

  /** Spec of the genre encoder: when the vocabulary covers a row's labels, the
      row holds exactly one 1 per distinct category; duplicates collapse. */
  lemma MultiLabelCountsDistinctLabels<T>(labels: seq<T>, vocab: seq<T>)
    requires Distinct(vocab)
    requires forall x :: x in labels ==> x in vocab
    ensures Sum(MultiLabelRow(labels, vocab)) == |set x | x in labels|
  {
    MultiLabelRowSum(labels, vocab);
    assert (set x | x in labels) * (set v | v in vocab) == set x | x in labels;
  }

  /** A multi-label row depends only on the set of labels, not on their order or repetition. */
  lemma MultiLabelRowSetOnly<T>(a: seq<T>, b: seq<T>, vocab: seq<T>)
    requires forall x :: x in a <==> x in b
    ensures MultiLabelRow(a, vocab) == MultiLabelRow(b, vocab)
  {
  }

  /** A row with no labels is all zeros, and a row's 1s are exactly the
      vocabulary entries it lists. */
  lemma MultiLabelRowMarks<T>(labels: seq<T>, vocab: seq<T>)
    ensures labels == [] ==> forall j :: 0 <= j < |vocab| ==> MultiLabelRow(labels, vocab)[j] == 0
    ensures forall j :: 0 <= j < |vocab| ==> (MultiLabelRow(labels, vocab)[j] == 1 <==> vocab[j] in labels)
  {
  }

  /** A one-hot row is the multi-label row of the one-category list. */
  lemma OneHotIsSingleLabel<T>(category: T, vocab: seq<T>)
    ensures OneHotRow(category, vocab) == MultiLabelRow([category], vocab)
  {
  }

  /** Every row of a one-hot encoding fitted on its own labels holds exactly one
      1, in the column of the row's category. */
  lemma OneHotExactlyOne<T>(category: T, vocab: seq<T>)
    requires Distinct(vocab)
    requires category in vocab
    ensures Sum(OneHotRow(category, vocab)) == 1
    ensures forall j :: 0 <= j < |vocab| ==> (OneHotRow(category, vocab)[j] == 1 <==> vocab[j] == category)
  {
    OneHotIsSingleLabel(category, vocab);
    MultiLabelCountsDistinctLabels([category], vocab);
    assert (set x | x in [category]) == {category};
  }

  /** A category the vocabulary does not know gives an all-zero row. */
  lemma OneHotUnknownIsZero<T>(category: T, vocab: seq<T>)
    requires Distinct(vocab)
    requires category !in vocab
    ensures Sum(OneHotRow(category, vocab)) == 0
  {
    OneHotIsSingleLabel(category, vocab);
    MultiLabelRowSum([category], vocab);
    assert (set x | x in [category]) * (set v | v in vocab) == {};
  }
}
