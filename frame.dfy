/**
 * The tabular values the data engine hands back, and row-wise concatenation
 * with the index renumbered from 0 (what `pd.concat(dfs, ignore_index=True)`
 * produces). The column outer union is the engine's default behaviour and is
 * stated here as the assumed meaning of a successful concatenation.
 */
module Frame {

  /** A loosely typed scalar cell; `Null` stands for a missing value. */
  datatype Cell = Null | Text(s: string) | Number(x: real) | Flag(b: bool)

  /** One row: its index label and its cells keyed by column name. */
  datatype Record = Record(rowLabel: int, cells: map<string, Cell>)

  /** A table: column names in order and rows in order. */
  datatype Table = Table(columns: seq<string>, rows: seq<Record>)

  /** `len(df)`: the number of rows. */
  function Len(t: Table): nat
  {
    |t.rows|
  }

  /** `df.empty`: true when either axis has length zero, so a table with
      rows but no columns is empty too. */
  predicate IsEmpty(t: Table)
  {
    |t.rows| == 0 || |t.columns| == 0
  }

  /** Every row has a cell for exactly the table's columns. */
  predicate WellFormed(t: Table)
  {
    forall k :: 0 <= k < |t.rows| ==> t.rows[k].cells.Keys == set c | c in t.columns
  }

  predicate Distinct(s: seq<string>)
  {
    forall i, j :: 0 <= i < j < |s| ==> s[i] != s[j]
  }

  /** Sum of `len` over a sequence of tables, accumulated from the front. */
  function SumRows(ts: seq<Table>): nat
  {
    if ts == [] then 0 else SumRows(ts[..|ts| - 1]) + Len(ts[|ts| - 1])
  }

  /** The rows of all tables, table after table. */
  function AllRows(ts: seq<Table>): seq<Record>
  {
    if ts == [] then [] else AllRows(ts[..|ts| - 1]) + ts[|ts| - 1].rows
  }

  /** Appends to `acc` each name of `cs` that is not yet in it, in order. */
  function AddNew(acc: seq<string>, cs: seq<string>): seq<string>
    decreases |cs|
  {
    if cs == [] then acc
    else AddNew(if cs[0] in acc then acc else acc + [cs[0]], cs[1..])
  }

  /** Column names of all tables in order of first appearance. */
  function UnionColumns(ts: seq<Table>): seq<string>
  {
    if ts == [] then [] else AddNew(UnionColumns(ts[..|ts| - 1]), ts[|ts| - 1].columns)
  }

  /** A row widened to the merged columns, missing cells set to `Null`. */
  function Align(cells: map<string, Cell>, cols: seq<string>): map<string, Cell>
  {
    map c | c in cols :: if c in cells then cells[c] else Null
  }

  /** Rows relabelled 0, 1, 2, ... and aligned to `cols`. */
  function Renumber(rs: seq<Record>, cols: seq<string>): seq<Record>
  {
    seq(|rs|, k requires 0 <= k < |rs| => Record(k, Align(rs[k].cells, cols)))
  }

  /** Row-wise concatenation with `ignore_index=True`. */
  function Concat(ts: seq<Table>): Table
  {
    var cols := UnionColumns(ts);
    Table(cols, Renumber(AllRows(ts), cols))
  }

  // ---------------------------------------------------------------------
  // Row counts and row order

  lemma {:induction false} AllRowsLength(ts: seq<Table>)
    ensures |AllRows(ts)| == SumRows(ts)
  {
    if ts != [] {
      AllRowsLength(ts[..|ts| - 1]);
    }
  }

  lemma {:induction false} AllRowsAppend(a: seq<Table>, b: seq<Table>)
    ensures AllRows(a + b) == AllRows(a) + AllRows(b)
    decreases |b|
  {
    if b == [] {
      assert a + b == a;
    } else {
      var b', ab := b[..|b| - 1], a + b;
      assert ab[..|ab| - 1] == a + b' && ab[|ab| - 1] == b[|b| - 1];
      AllRowsAppend(a, b');
      assert AllRows(ab) == AllRows(a + b') + b[|b| - 1].rows;
    }
  }

  lemma {:induction false} SumRowsAppend(a: seq<Table>, b: seq<Table>)
    ensures SumRows(a + b) == SumRows(a) + SumRows(b)
    decreases |b|
  {
    if b == [] {
      assert a + b == a;
    } else {
      var b' := b[..|b| - 1];
      assert (a + b)[..|a + b| - 1] == a + b';
      SumRowsAppend(a, b');
    }
  }

  /** The rows of `ts` are those of the tables before `ts[j]`, then the rows
      of `ts[j]`, then those after it. */
  lemma AllRowsSplit(ts: seq<Table>, j: nat)
    requires j < |ts|
    ensures AllRows(ts) == AllRows(ts[..j]) + ts[j].rows + AllRows(ts[j + 1..])
    ensures |AllRows(ts[..j])| == SumRows(ts[..j])
  {
    assert ts == ts[..j] + [ts[j]] + ts[j + 1..];
    AllRowsAppend(ts[..j] + [ts[j]], ts[j + 1..]);
    AllRowsAppend(ts[..j], [ts[j]]);
    assert [ts[j]][..0] == [];
    AllRowsLength(ts[..j]);
  }

  // ---------------------------------------------------------------------
  // The merged columns

  lemma {:induction false} AddNewMembers(acc: seq<string>, cs: seq<string>)
    ensures forall c :: c in AddNew(acc, cs) <==> c in acc || c in cs
    ensures Distinct(acc) ==> Distinct(AddNew(acc, cs))
    ensures |acc| <= |AddNew(acc, cs)| && AddNew(acc, cs)[..|acc|] == acc
    decreases |cs|
  {
    if cs != [] {
      var acc' := if cs[0] in acc then acc else acc + [cs[0]];
      AddNewMembers(acc', cs[1..]);
      assert cs == [cs[0]] + cs[1..];
      assert AddNew(acc', cs[1..])[..|acc'|][..|acc|] == acc;
    }
  }

  /** The merged columns are exactly the columns of some input table. */
  lemma {:induction false} UnionColumnsMembers(ts: seq<Table>)
    ensures forall c :: c in UnionColumns(ts) <==> exists j :: 0 <= j < |ts| && c in ts[j].columns
  {
    if ts != [] {
      var front := ts[..|ts| - 1];
      var last := ts[|ts| - 1];
      UnionColumnsMembers(front);
      AddNewMembers(UnionColumns(front), last.columns);
      forall c
        ensures c in UnionColumns(ts) <==> exists j :: 0 <= j < |ts| && c in ts[j].columns
      {
        if c in UnionColumns(front) {
          var j :| 0 <= j < |front| && c in front[j].columns;
          assert ts[j] == front[j];
        }
        if exists j :: 0 <= j < |ts| && c in ts[j].columns {
          var j :| 0 <= j < |ts| && c in ts[j].columns;
          if j < |ts| - 1 {
            assert front[j] == ts[j];
          }
        }
      }
    }
  }

  /** Each merged column is named once. */
  lemma {:induction false} UnionColumnsDistinct(ts: seq<Table>)
    ensures Distinct(UnionColumns(ts))
  {
    if ts != [] {
      UnionColumnsDistinct(ts[..|ts| - 1]);
      AddNewMembers(UnionColumns(ts[..|ts| - 1]), ts[|ts| - 1].columns);
    }
  }

  /** The first table's columns, when distinct, lead the merged columns in
      their own order. */
  lemma {:induction false} UnionColumnsFirst(ts: seq<Table>)
    requires |ts| > 0 && Distinct(ts[0].columns)
    ensures |ts[0].columns| <= |UnionColumns(ts)|
    ensures UnionColumns(ts)[..|ts[0].columns|] == ts[0].columns
  {
    var front := ts[..|ts| - 1];
    var last := ts[|ts| - 1];
    AddNewMembers(UnionColumns(front), last.columns);
    if |ts| == 1 {
      assert front == [];
      assert [] + last.columns == last.columns;
      AddNewDistinct([], last.columns);
    } else {
      assert front[0] == ts[0];
      UnionColumnsFirst(front);
      var n := |ts[0].columns|;
      assert UnionColumns(ts)[..n] == UnionColumns(ts)[..|UnionColumns(front)|][..n];
    }
  }

  /**
   * Columns are merged in order of first appearance across the tables: the
   * merged columns of the first `j` tables are exactly the columns those
   * tables have, and they lead the merged columns of all tables, so every
   * column first seen in a later table comes after them.
   */
  lemma {:induction false} UnionColumnsPrefix(ts: seq<Table>, j: nat)
    requires j <= |ts|
    ensures |UnionColumns(ts[..j])| <= |UnionColumns(ts)|
    ensures UnionColumns(ts)[..|UnionColumns(ts[..j])|] == UnionColumns(ts[..j])
    ensures forall c :: c in UnionColumns(ts[..j]) <==> exists i :: 0 <= i < j && c in ts[i].columns
    decreases |ts| - j
  {
    UnionColumnsMembers(ts[..j]);
    forall c | c in UnionColumns(ts[..j])
      ensures exists i :: 0 <= i < j && c in ts[i].columns
    {
      var i :| 0 <= i < |ts[..j]| && c in ts[..j][i].columns;
      assert ts[..j][i] == ts[i];
    }
    forall c | exists i :: 0 <= i < j && c in ts[i].columns
      ensures c in UnionColumns(ts[..j])
    {
      var i :| 0 <= i < j && c in ts[i].columns;
      assert ts[..j][i] == ts[i];
    }
    if j < |ts| {
      var front := ts[..|ts| - 1];
      assert front[..j] == ts[..j];
      UnionColumnsPrefix(front, j);
      AddNewMembers(UnionColumns(front), ts[|ts| - 1].columns);
      var n := |UnionColumns(ts[..j])|;
      assert UnionColumns(ts)[..n] == UnionColumns(ts)[..|UnionColumns(front)|][..n];
    } else {
      assert ts[..j] == ts;
    }
  }

  /** Adding names that are new and distinct appends them unchanged. */
  lemma {:induction false} AddNewDistinct(acc: seq<string>, cs: seq<string>)
    requires Distinct(acc + cs)
    ensures AddNew(acc, cs) == acc + cs
    decreases |cs|
  {
    if cs != [] {
      forall i | 0 <= i < |acc|
        ensures acc[i] != cs[0]
      {
        assert (acc + cs)[i] == acc[i] && (acc + cs)[|acc|] == cs[0];
      }
      assert acc + cs == (acc + [cs[0]]) + cs[1..];
      AddNewDistinct(acc + [cs[0]], cs[1..]);
    }
  }

  // ---------------------------------------------------------------------
  // What the merged table holds

  /** Where row `m` of `ts[j]` lands in the concatenation: after all rows
      of the tables before `ts[j]`. */
  function Position(ts: seq<Table>, j: nat, m: nat): nat
    requires j <= |ts|
  {
    SumRows(ts[..j]) + m
  }

  /** Row `m` of `ts[j]` is row `Position(ts, j, m)` of the rows of all
      tables. */
  lemma RowAt(ts: seq<Table>, j: nat, m: nat)
    requires j < |ts| && m < |ts[j].rows|
    ensures Position(ts, j, m) < |AllRows(ts)|
    ensures AllRows(ts)[Position(ts, j, m)] == ts[j].rows[m]
  {
    AllRowsSplit(ts, j);
    var before, rows, after := AllRows(ts[..j]), ts[j].rows, AllRows(ts[j + 1..]);
    assert (before + rows + after)[|before| + m] == rows[m];
  }

  /** Row `m` of `ts[j]` sits at `Position(ts, j, m)` in the merged table,
      widened to the merged columns. */
  lemma ConcatRowOrigin(ts: seq<Table>, j: nat, m: nat)
    requires j < |ts| && m < |ts[j].rows|
    ensures Position(ts, j, m) < Len(Concat(ts))
    ensures Concat(ts).rows[Position(ts, j, m)].cells == Align(ts[j].rows[m].cells, UnionColumns(ts))
  {
    RowAt(ts, j, m);
    var rs := AllRows(ts);
    var cols := UnionColumns(ts);
    var k := Position(ts, j, m);
    assert Concat(ts).rows == Renumber(rs, cols);
    assert Renumber(rs, cols)[k] == Record(k, Align(rs[k].cells, cols));
  }

  /**
   * The merged table has `SumRows(ts)` rows labelled 0, 1, 2, ...; row
   * `Position(ts, j, m)` is row `m` of `ts[j]` widened to the merged
   * columns; the table is well formed.
   */
  lemma ConcatSpec(ts: seq<Table>)
    ensures Len(Concat(ts)) == SumRows(ts)
    ensures forall k :: 0 <= k < Len(Concat(ts)) ==> Concat(ts).rows[k].rowLabel == k
    ensures WellFormed(Concat(ts))
    ensures forall j: nat, m: nat :: j < |ts| && m < |ts[j].rows| ==>
      Position(ts, j, m) < Len(Concat(ts)) &&
      Concat(ts).rows[Position(ts, j, m)].cells == Align(ts[j].rows[m].cells, UnionColumns(ts))
  {
    AllRowsLength(ts);
    forall j: nat, m: nat | j < |ts| && m < |ts[j].rows|
      ensures Position(ts, j, m) < Len(Concat(ts)) &&
        Concat(ts).rows[Position(ts, j, m)].cells == Align(ts[j].rows[m].cells, UnionColumns(ts))
    {
      ConcatRowOrigin(ts, j, m);
    }
  }

  /**
   * In the merged table a cell of a row that came from a well-formed table
   * keeps its value when the column belongs to that table, and is `Null`
   * when the column comes only from other tables.
   */
  lemma ConcatCell(ts: seq<Table>, j: nat, m: nat, c: string)
    requires j < |ts| && m < |ts[j].rows| && WellFormed(ts[j])
    requires c in UnionColumns(ts)
    ensures Position(ts, j, m) < Len(Concat(ts))
    ensures Concat(ts).rows[Position(ts, j, m)].cells[c] ==
      if c in ts[j].columns then ts[j].rows[m].cells[c] else Null
  {
    ConcatSpec(ts);
    assert ts[j].rows[m].cells.Keys == set c | c in ts[j].columns;
  }
}
