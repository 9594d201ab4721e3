/** The assembler: the passthrough columns that are present, followed by the
    genre block and the language block, glued side by side by row position. */
module Assembly {
  import opened PyValues

  /** A data frame, column by column: `data[j]` holds column `names[j]`. */
  datatype Table = Table(names: seq<string>, data: seq<seq<Value>>, rows: nat)

  ghost predicate WellFormed(t: Table) {
    |t.names| == |t.data| && forall j :: 0 <= j < |t.data| ==> |t.data[j]| == t.rows
  }

  /** The passthrough columns, in output order. */
  const Passthrough: seq<string> := ["id", "original_title", "overview", "budget_norm", "adult"]

  /** `[c for c in wanted if c in present]` */
  function PresentIn(wanted: seq<string>, present: seq<string>): (r: seq<string>)
    ensures |r| <= |wanted|
    ensures forall c :: c in r <==> c in wanted && c in present
  {
    if wanted == [] then []
    else
      var last := wanted[|wanted| - 1];
      PresentIn(wanted[..|wanted| - 1], present) + (if last in present then [last] else [])
  }

  /** Filtering keeps the order of `wanted`: it distributes over concatenation. */
  lemma {:induction false} PresentInAppend(a: seq<string>, b: seq<string>, present: seq<string>)
    ensures PresentIn(a + b, present) == PresentIn(a, present) + PresentIn(b, present)
  {
    if b == [] {
      assert a + b == a;
    } else {
      var b' := b[..|b| - 1];
      assert (a + b)[..|a + b| - 1] == a + b';
      PresentInAppend(a, b', present);
    }
  }

  /** Filtering a list without repetitions gives a list without repetitions. */
  lemma {:induction false} PresentInDistinct(wanted: seq<string>, present: seq<string>)
    requires forall i, j :: 0 <= i < j < |wanted| ==> wanted[i] != wanted[j]
    ensures var r := PresentIn(wanted, present);
            forall i, j :: 0 <= i < j < |r| ==> r[i] != r[j]
  {
    if wanted != [] {
      var init, last := wanted[..|wanted| - 1], wanted[|wanted| - 1];
      PresentInDistinct(init, present);
      assert last !in init;
      assert last !in PresentIn(init, present);
    }
  }

  /** Filtering a list by a frame that has all of it keeps the whole list. */
  lemma {:induction false} PresentInAll(wanted: seq<string>, present: seq<string>)
    requires forall c :: c in wanted ==> c in present
    ensures PresentIn(wanted, present) == wanted
  {
    if wanted != [] {
      PresentInAll(wanted[..|wanted| - 1], present);
      assert wanted[..|wanted| - 1] + [wanted[|wanted| - 1]] == wanted;
    }
  }

  /** The loop of first.py that builds `base_cols`. */
  method BaseColumns(present: seq<string>) returns (base: seq<string>)
    ensures base == PresentIn(Passthrough, present)
  {
    base := [];
    for k := 0 to |Passthrough|
      invariant base == PresentIn(Passthrough[..k], present)
    {
      var col := Passthrough[k];
      assert Passthrough[..k + 1][..k] == Passthrough[..k];
      if col in present {
        base := base + [col];
      }
    }
    assert Passthrough[..|Passthrough|] == Passthrough;
  }

  /** `frame[names].reset_index(drop=True)` */
  function Select(cells: map<string, seq<Value>>, names: seq<string>, rows: nat): (t: Table)
    requires forall c :: c in names ==> c in cells && |cells[c]| == rows
    ensures WellFormed(t) && t.names == names && t.rows == rows
    ensures forall j :: 0 <= j < |names| ==> t.data[j] == cells[names[j]]
  {
    Table(names, seq(|names|, j requires 0 <= j < |names| => cells[names[j]]), rows)
  }

  /** `pd.DataFrame(matrix, columns=names).astype(np.uint8)` */
  function Indicators(names: seq<string>, matrix: seq<seq<int>>): (t: Table)
    requires forall i :: 0 <= i < |matrix| ==> |matrix[i]| == |names|
    ensures WellFormed(t) && t.names == names && t.rows == |matrix|
    ensures forall j, i :: 0 <= j < |names| && 0 <= i < |matrix| ==> t.data[j][i] == PyInt(matrix[i][j])
  {
    Table(names,
          seq(|names|, j requires 0 <= j < |names| =>
            seq(|matrix|, i requires 0 <= i < |matrix| => PyInt(matrix[i][j]))),
          |matrix|)
  }

  /** A frame extended to `n` rows, the new cells NaN, as pandas aligns a
      shorter frame against a longer one. */
  function Pad(t: Table, n: nat): (r: Table)
    requires WellFormed(t) && t.rows <= n
    ensures WellFormed(r) && r.names == t.names && r.rows == n && |r.data| == |t.data|
    ensures forall j :: 0 <= j < |t.data| ==> r.data[j][..t.rows] == t.data[j]
    ensures forall j, i :: 0 <= j < |t.data| && t.rows <= i < n ==> r.data[j][i] == PyFloat(NaN)
  {
    var r := Table(t.names,
                   seq(|t.data|, j requires 0 <= j < |t.data| => t.data[j] + seq(n - t.rows, _ => PyFloat(NaN))),
                   n);
    assert forall j :: 0 <= j < |t.data| ==> r.data[j][..t.rows] == t.data[j];
    r
  }

  /** `pd.concat([a, b], axis=1)` on two frames indexed 0..n-1: columns side by
      side, as tall as the taller frame; `ConcatCells` says where each cell lands. */
  function Concat(a: Table, b: Table): (t: Table)
    requires WellFormed(a) && WellFormed(b)
    ensures WellFormed(t)
    ensures t.names == a.names + b.names
    ensures t.rows == if a.rows < b.rows then b.rows else a.rows
  {
    var n := if a.rows < b.rows then b.rows else a.rows;
    var pa, pb := Pad(a, n), Pad(b, n);
    Table(a.names + b.names, pa.data + pb.data, n)
  }

  /** Rows are matched by position: each cell of either frame keeps its row,
      and the rows a shorter frame lacks are NaN. */
  lemma ConcatCells(a: Table, b: Table)
    requires WellFormed(a) && WellFormed(b)
    ensures var t := Concat(a, b);
      && (forall j, i :: 0 <= j < |a.data| && 0 <= i < a.rows ==> t.data[j][i] == a.data[j][i])
      && (forall j, i :: |a.data| <= j < |t.data| && 0 <= i < b.rows ==> t.data[j][i] == b.data[j - |a.data|][i])
      && (forall j, i :: 0 <= j < |a.data| && a.rows <= i < t.rows ==> t.data[j][i] == PyFloat(NaN))
      && (forall j, i :: |a.data| <= j < |t.data| && b.rows <= i < t.rows ==> t.data[j][i] == PyFloat(NaN))
  {
  }

  /** Frames of equal height are glued without padding: every row of the
      result is the row of the first frame followed by the row of the second. */
  lemma ConcatAligned(a: Table, b: Table)
    requires WellFormed(a) && WellFormed(b) && a.rows == b.rows
    ensures Concat(a, b).rows == a.rows
    ensures Concat(a, b).data == a.data + b.data
  {
    var n := a.rows;
    forall j | 0 <= j < |a.data| ensures Pad(a, n).data[j] == a.data[j] {
      assert Pad(a, n).data[j][..n] == a.data[j];
    }
    forall j | 0 <= j < |b.data| ensures Pad(b, n).data[j] == b.data[j] {
      assert Pad(b, n).data[j][..n] == b.data[j];
    }
  }

  /** Dropping the first block of three glued blocks leaves the other two. */
  lemma DropFirst<T>(d: seq<T>, off: nat, a: seq<T>, b: seq<T>, c: seq<T>)
    requires d == a + b + c && off == |a|
    ensures off <= |d| && d[off..] == b + c
  {
    assert (a + b + c)[|a|..] == b + c;
  }
}
