/**
 A single-row pandas DataFrame, as the predictor builds it from its input
 dictionary, and the `reindex(columns=..., fill_value=0)` step that aligns
 it with the classifier's ordered list of feature names (app.py:93-94).

 A row is an ordered sequence of named cells; a cell holds either a number
 or a boolean, which is all the dictionary ever puts in a column.
 */
module Frames {
  import opened Results

  /** The contents of one column of the single row. */
  datatype Value = Num(n: int) | Flag(b: bool)

  /** What `reindex` writes into a column the row did not have (`fill_value=0`). */
  const FillValue: Value := Num(0)

  datatype Cell = Cell(name: string, value: Value)

  type Row = seq<Cell>

  /** The error pandas raises when the row being reindexed names a column twice. */
  datatype ReindexError = DuplicateAxisLabels

  /** The column labels of a row, in order. */
  function Columns(row: Row): (cols: seq<string>)
    ensures |cols| == |row|
    ensures forall i :: 0 <= i < |row| ==> cols[i] == row[i].name
  {
    seq(|row|, i requires 0 <= i < |row| => row[i].name)
  }

  predicate Distinct<T(==)>(s: seq<T>) {
    forall i, j :: 0 <= i < j < |s| ==> s[i] != s[j]
  }

  /** The value stored under `name` in the first column so labelled, if there is one. */
  function Lookup(row: Row, name: string): Option<Value> {
    if |row| == 0 then None
    else if row[0].name == name then Some(row[0].value)
    else Lookup(row[1..], name)
  }

  /** A lookup finds something exactly when the label is a column, and what it finds is stored there. */
  lemma {:induction false} LookupFinds(row: Row, name: string)
    ensures Lookup(row, name).None? <==> name !in Columns(row)
    ensures Lookup(row, name).Some? ==>
      exists i :: 0 <= i < |row| && row[i] == Cell(name, Lookup(row, name).value)
  {
    if |row| > 0 {
      assert Columns(row) == [row[0].name] + Columns(row[1..]);
      if row[0].name != name {
        LookupFinds(row[1..], name);
        if Lookup(row, name).Some? {
          var i :| 0 <= i < |row[1..]| && row[1..][i] == Cell(name, Lookup(row, name).value);
          assert row[i + 1] == Cell(name, Lookup(row, name).value);
        }
      }
    }
  }

  /** In a row without duplicate labels, looking up a column's label finds that column. */
  lemma {:induction false} LookupAt(row: Row, i: nat)
    requires i < |row|
    requires Distinct(Columns(row))
    ensures Lookup(row, row[i].name) == Some(row[i].value)
  {
    if i > 0 {
      assert row[0].name != row[i].name by {
        assert Columns(row)[0] != Columns(row)[i];
      }
      assert Distinct(Columns(row[1..])) by {
        forall a, b | 0 <= a < b < |row[1..]|
          ensures Columns(row[1..])[a] != Columns(row[1..])[b]
        {
          assert Columns(row)[a + 1] != Columns(row)[b + 1];
        }
      }
      LookupAt(row[1..], i - 1);
    }
  }

  /** The value `reindex` writes under `name`: the row's own value, or the fill value. */
  function ValueOrFill(row: Row, name: string): Value {
    Lookup(row, name).GetOr(FillValue)
  }

  /**
   The new row `reindex` builds, one target column at a time: the columns are
   exactly `names`, in that order, and each holds the old value under that
   label or the fill value.
   */
  function Align(row: Row, names: seq<string>): (r: Row)
    ensures Columns(r) == names
    ensures forall i :: 0 <= i < |names| ==> r[i].value == ValueOrFill(row, names[i])
    decreases |names|
  {
    if |names| == 0 then []
    else Align(row, names[..|names| - 1]) + [Cell(names[|names| - 1], ValueOrFill(row, names[|names| - 1]))]
  }

  /**
   `row.reindex(columns=names, fill_value=0)`. When the row's labels already
   are `names`, in order, pandas hands the row back as it is, repeated labels
   or not. Otherwise it raises on a row with a repeated label, and on any
   other row builds the aligned row: the columns are `names` in order, a kept
   column keeps its value, a missing one holds 0, and a column not in `names`
   is gone.
   */
  function Reindex(row: Row, names: seq<string>): (r: Result<Row, ReindexError>)
    ensures r.Success? <==> Distinct(Columns(row)) || Columns(row) == names
    ensures r.Success? ==> Columns(r.value) == names
    ensures Columns(row) == names ==> r == Success(row)
    ensures Distinct(Columns(row)) ==> forall i :: 0 <= i < |names| ==>
      (names[i] in Columns(row) ==> Lookup(row, names[i]) == Some(r.value[i].value)) &&
      (names[i] !in Columns(row) ==> r.value[i].value == FillValue)
  {
    assert forall i :: 0 <= i < |names| ==> (Lookup(row, names[i]).None? <==> names[i] !in Columns(row)) by {
      forall i | 0 <= i < |names| {
        LookupFinds(row, names[i]);
      }
    }
    assert Distinct(Columns(row)) ==> Align(row, Columns(row)) == row by {
      if Distinct(Columns(row)) {
        AlignedRowIsFixed(row);
      }
    }
    if Columns(row) == names then Success(row)
    else if Distinct(Columns(row)) then Success(Align(row, names))
    else Failure(DuplicateAxisLabels)
  }

  /** Looking a name up in a reindexed row gives the old value, the fill value, or nothing. */
  lemma ReindexLookup(row: Row, names: seq<string>, name: string)
    requires Distinct(Columns(row))
    requires Distinct(names)
    ensures name !in names ==> Lookup(Reindex(row, names).value, name) == None
    ensures name in names && name in Columns(row) ==>
      Lookup(Reindex(row, names).value, name) == Lookup(row, name)
    ensures name in names && name !in Columns(row) ==>
      Lookup(Reindex(row, names).value, name) == Some(FillValue)
  {
    var out := Reindex(row, names).value;
    LookupFinds(out, name);
    LookupFinds(row, name);
    if name in names {
      var i :| 0 <= i < |names| && names[i] == name;
      LookupAt(out, i);
    }
  }

  /**
   Aligning a row with distinct labels against its own labels rebuilds it
   unchanged, so the shortcut pandas takes for such a row agrees with the
   general alignment.
   */
  lemma AlignedRowIsFixed(row: Row)
    requires Distinct(Columns(row))
    ensures Align(row, Columns(row)) == row
  {
    var out := Align(row, Columns(row));
    assert |out| == |row|;
    forall i | 0 <= i < |row|
      ensures out[i] == row[i]
    {
      LookupAt(row, i);
      assert out[i].name == Columns(row)[i] == row[i].name;
    }
    assert out == row;
  }

  /** Whenever reindexing succeeds, reindexing its result against the same names changes nothing. */
  lemma ReindexIdempotent(row: Row, names: seq<string>)
    requires Reindex(row, names).Success?
    ensures Reindex(Reindex(row, names).value, names) == Reindex(row, names)
  {
  }

  /**
   Repeated labels: a target naming a column twice is accepted, and the row
   built for it, which has a repeated label, is handed back unchanged by a
   second reindex against the same names; a row with a repeated label
   cannot be aligned with any other list of names.
   */
  lemma RepeatedLabelCases()
    ensures Reindex([], ["a", "a"]) == Success([Cell("a", FillValue), Cell("a", FillValue)])
    ensures Reindex(Reindex([], ["a", "a"]).value, ["a", "a"]) == Reindex([], ["a", "a"])
    ensures Reindex([Cell("a", Num(1)), Cell("a", Num(2))], ["a"]) == Failure(DuplicateAxisLabels)
  {
    var built := Align([], ["a", "a"]);
    assert Lookup([], "a") == None;
    assert built[0] == Cell("a", FillValue) && built[1] == Cell("a", FillValue);
    assert built == [Cell("a", FillValue), Cell("a", FillValue)];
    var twice := [Cell("a", Num(1)), Cell("a", Num(2))];
    assert Columns(twice)[0] == Columns(twice)[1];
    assert Columns(twice) != ["a"];
  }
}
