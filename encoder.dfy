/** The feature encoder of dashboard/app.py (lines 72-82): one-hot encoding
    of the input frame with `pd.get_dummies(..., drop_first=True)`, then
    reconciliation with the trained model's ordered schema `feature_cols`:
    missing schema columns are added with value 0 and the frame is cut
    down and reordered to exactly the schema. */
module Encoder {
  import opened Frame
  import opened Applicant

  // ---------------------------------------------------------------------
  // pd.get_dummies on a one-row frame
  // ---------------------------------------------------------------------

  /** The columns of `row` that are not being encoded, in their order. */
  function Untouched(row: Row, columns: seq<string>): Row
  {
    if row == [] then []
    else (if row[0].0 in columns then [] else [row[0]]) + Untouched(row[1..], columns)
  }

  /** The indicator columns pandas makes for one encoded column of a
      one-row frame whose cell is `level`.  The levels observed are the
      sorted distinct values, here just `[level]`; each gets a column named
      column + "_" + level holding whether the cell equals it, and
      `drop_first` drops the first level. */
  function Indicators(column: string, level: string, dropFirst: bool): Row
  {
    var levels := [level];
    var kept := if dropFirst then levels[1..] else levels;
    seq(|kept|, k requires 0 <= k < |kept| => (column + "_" + kept[k], BoolCell(kept[k] == level)))
  }

  /** The indicator blocks of all encoded columns, in the order of `columns`. */
  function DummyBlocks(row: Row, columns: seq<string>, dropFirst: bool): Row
    requires forall c :: c in columns ==> c in Names(row) && Lookup(row, c).StrCell?
  {
    if columns == [] then []
    else Indicators(columns[0], Lookup(row, columns[0]).s, dropFirst) + DummyBlocks(row, columns[1..], dropFirst)
  }

  /** `pd.get_dummies(row, columns=columns, drop_first=dropFirst)`: the
      columns left alone, followed by the indicator blocks.  On a one-row
      frame with `drop_first` every block is empty, so only the columns left
      alone remain. */
  function GetDummies(row: Row, columns: seq<string>, dropFirst: bool): (r: Row)
    requires forall c :: c in columns ==> c in Names(row) && Lookup(row, c).StrCell?
    ensures dropFirst ==> r == Untouched(row, columns)
    ensures !dropFirst ==>
      var kept := Untouched(row, columns);
      && |r| == |kept| + |columns|
      && r[..|kept|] == kept
      && forall k :: 0 <= k < |columns| ==>
           r[|kept| + k] == (columns[k] + "_" + Lookup(row, columns[k]).s, BoolCell(true))
  {
    DropFirstLeavesNoIndicators(row, columns);
    OneIndicatorPerColumn(row, columns);
    Untouched(row, columns) + DummyBlocks(row, columns, dropFirst)
  }

  lemma {:induction false} DropFirstLeavesNoIndicators(row: Row, columns: seq<string>)
    requires forall c :: c in columns ==> c in Names(row) && Lookup(row, c).StrCell?
    ensures DummyBlocks(row, columns, true) == []
    decreases |columns|
  {
    if columns != [] {
      DropFirstLeavesNoIndicators(row, columns[1..]);
    }
  }

  /** Without `drop_first`, each encoded column of a one-row frame gets
      exactly one indicator, named column + "_" + its value and holding
      true. */
  lemma {:induction false} OneIndicatorPerColumn(row: Row, columns: seq<string>)
    requires forall c :: c in columns ==> c in Names(row) && Lookup(row, c).StrCell?
    ensures |DummyBlocks(row, columns, false)| == |columns|
    ensures forall k :: 0 <= k < |columns| ==>
      DummyBlocks(row, columns, false)[k] == (columns[k] + "_" + Lookup(row, columns[k]).s, BoolCell(true))
    decreases |columns|
  {
    if columns != [] {
      OneIndicatorPerColumn(row, columns[1..]);
      var rest := DummyBlocks(row, columns[1..], false);
      assert DummyBlocks(row, columns, false) ==
        [(columns[0] + "_" + Lookup(row, columns[0]).s, BoolCell(true))] + rest;
      forall k | 1 <= k < |columns|
        ensures DummyBlocks(row, columns, false)[k] ==
                (columns[k] + "_" + Lookup(row, columns[k]).s, BoolCell(true))
      {
        assert columns[1..][k - 1] == columns[k];
      }
    }
  }

  lemma {:induction false} UntouchedKeepsAll(row: Row, columns: seq<string>)
    requires forall k :: 0 <= k < |row| ==> row[k].0 !in columns
    ensures Untouched(row, columns) == row
    decreases |row|
  {
    if row != [] {
      UntouchedKeepsAll(row[1..], columns);
    }
  }

  lemma {:induction false} UntouchedDropsAll(row: Row, columns: seq<string>)
    requires forall k :: 0 <= k < |row| ==> row[k].0 in columns
    ensures Untouched(row, columns) == []
    decreases |row|
  {
    if row != [] {
      UntouchedDropsAll(row[1..], columns);
    }
  }

  lemma {:induction false} UntouchedAppend(x: Row, y: Row, columns: seq<string>)
    ensures Untouched(x + y, columns) == Untouched(x, columns) + Untouched(y, columns)
    decreases |x|
  {
    if x == [] {
      assert x + y == y;
    } else {
      var head := if x[0].0 in columns then [] else [x[0]];
      assert (x + y)[0] == x[0];
      assert (x + y)[1..] == x[1..] + y;
      UntouchedAppend(x[1..], y, columns);
      calc {
        Untouched(x + y, columns);
        head + Untouched(x[1..] + y, columns);
        head + (Untouched(x[1..], columns) + Untouched(y, columns));
        (head + Untouched(x[1..], columns)) + Untouched(y, columns);
        Untouched(x, columns) + Untouched(y, columns);
      }
    }
  }

  /** The frame `get_dummies` returns in the dashboard (line 76) is exactly
      the five numeric inputs under their own names: no indicator column of
      any categorical input survives. */
  lemma EncodedInputIsNumeric(a: Applicant)
    ensures GetDummies(InputRow(a), CatCols, true) == NumericRow(a)
  {
    InputUntouched(a);
  }

  lemma InputUntouched(a: Applicant)
    ensures Untouched(InputRow(a), CatCols) == NumericRow(a)
  {
    var numeric := NumericRow(a);
    var categorical := CategoricalRow(a);
    UntouchedAppend(numeric, categorical, CatCols);
    UntouchedKeepsAll(numeric, CatCols);
    UntouchedDropsAll(categorical, CatCols);
  }

  // ---------------------------------------------------------------------
  // Schema reconciliation
  // ---------------------------------------------------------------------

  /** The frame after the loop of lines 79-81 has run over `cols`: each
      name of `cols` not yet a column is appended with value 0.  The frame
      itself is kept as a prefix, every added column is a fresh name holding
      0, and afterwards the columns are those of the frame and of `cols`. */
  function ZeroFilled(frame: Row, cols: seq<string>): (r: Row)
    ensures |frame| <= |r| && r[..|frame|] == frame
    ensures forall k :: |frame| <= k < |r| ==> r[k].0 !in Names(frame) && r[k].1 == IntCell(0)
    ensures forall n :: n in Names(r) <==> n in Names(frame) || n in cols
    decreases |cols|
  {
    if cols == [] then frame
    else
      var prior := ZeroFilled(frame, cols[..|cols| - 1]);
      var col := cols[|cols| - 1];
      assert forall n :: n in cols <==> n in cols[..|cols| - 1] || n == col by {
        assert cols == cols[..|cols| - 1] + [col];
      }
      if col in Names(prior) then prior
      else
        var r := prior + [(col, IntCell(0))];
        assert Names(r) == Names(prior) + [col];
        r
  }

  /** Lines 79-81: the loop that adds every missing schema column to the
      frame, one column at a time. */
  method AddMissingColumns(frame: Row, featureCols: seq<string>) returns (filled: Row)
    ensures filled == ZeroFilled(frame, featureCols)
  {
    filled := frame;
    for i := 0 to |featureCols|
      invariant filled == ZeroFilled(frame, featureCols[..i])
    {
      var col := featureCols[i];
      assert featureCols[..i + 1][..i] == featureCols[..i];
      if col !in Names(filled) {
        filled := filled + [(col, IntCell(0))];
      }
    }
    assert featureCols[..|featureCols|] == featureCols;
  }

  /** After zero filling, a name that was a column keeps its value and a
      name that was only in the schema reads 0. */
  lemma ZeroFilledLookup(frame: Row, cols: seq<string>, name: string)
    requires name in Names(frame) || name in cols
    ensures name in Names(ZeroFilled(frame, cols))
    ensures Lookup(ZeroFilled(frame, cols), name) ==
            if name in Names(frame) then Lookup(frame, name) else IntCell(0)
  {
    var r := ZeroFilled(frame, cols);
    if name in Names(frame) {
      assert r == frame + r[|frame|..];
      LookupAppend(frame, r[|frame|..], name);
    } else {
      forall j | 0 <= j < |frame|
        ensures r[j].0 == Names(frame)[j]
      {
        assert r[..|frame|][j] == r[j];
      }
      var k :| 0 <= k < |r| && r[k] == (name, Lookup(r, name));
    }
  }

  /** Lines 79-82 together: zero fill, then `frame[cols]`.  This never
      fails; the result has exactly the schema's columns in the schema's
      order, a schema name the frame produced keeps its produced value, one
      it did not produce reads 0, and any produced name outside the schema
      is gone. */
  function Project(frame: Row, cols: seq<string>): (r: Row)
    ensures Names(r) == cols
    ensures forall k :: 0 <= k < |cols| ==>
      r[k].1 == if cols[k] in Names(frame) then Lookup(frame, cols[k]) else IntCell(0)
  {
    var filled := ZeroFilled(frame, cols);
    assert forall k :: 0 <= k < |cols| ==>
      Lookup(filled, cols[k]) == if cols[k] in Names(frame) then Lookup(frame, cols[k]) else IntCell(0)
    by {
      forall k | 0 <= k < |cols|
        ensures Lookup(filled, cols[k]) == if cols[k] in Names(frame) then Lookup(frame, cols[k]) else IntCell(0)
      {
        ZeroFilledLookup(frame, cols, cols[k]);
      }
    }
    Select(filled, cols)
  }

  // ---------------------------------------------------------------------
  // The whole encoder
  // ---------------------------------------------------------------------

  /** `input_encoded` after line 82, for the applicant `a` and the schema
      `featureCols`. */
  function EncodedRow(a: Applicant, featureCols: seq<string>): (r: Row)
    ensures Names(r) == featureCols
  {
    Project(GetDummies(InputRow(a), CatCols, true), featureCols)
  }

  /** The value each schema column receives, stated without pandas: the
      five numeric inputs under their own names, 0 for everything else. */
  function FeatureValue(a: Applicant, name: string): Cell
  {
    if name == "person_age" then IntCell(a.personAge)
    else if name == "person_income" then IntCell(a.personIncome)
    else if name == "loan_amnt" then IntCell(a.loanAmnt)
    else if name == "loan_percent_income" then RealCell(a.loanPercentIncome)
    else if name == "cb_preson_cred_hist_length" then IntCell(a.credHistLength)
    else IntCell(0)
  }

  /** Every column of the encoded row holds `FeatureValue`: numeric inputs
      pass through unchanged, and every other schema column, each
      categorical indicator included, is 0. */
  lemma EncodedRowValues(a: Applicant, featureCols: seq<string>)
    ensures |EncodedRow(a, featureCols)| == |featureCols|
    ensures forall k :: 0 <= k < |featureCols| ==>
      EncodedRow(a, featureCols)[k] == (featureCols[k], FeatureValue(a, featureCols[k]))
  {
    EncodedInputIsNumeric(a);
    var r := EncodedRow(a, featureCols);
    var numeric := NumericRow(a);
    assert Names(numeric) == NumericCols;
    forall k | 0 <= k < |featureCols|
      ensures r[k] == (featureCols[k], FeatureValue(a, featureCols[k]))
    {
      assert Names(r)[k] == featureCols[k];
      var n := featureCols[k];
      if n in NumericCols {
        var j :| 0 <= j < |numeric| && numeric[j] == (n, Lookup(numeric, n));
        assert Names(numeric)[j] == n;
      }
    }
  }

  /** The encoded row does not depend on the categorical inputs at all:
      two applicants with the same numeric inputs encode identically. */
  lemma EncodingIgnoresCategories(a: Applicant, b: Applicant, featureCols: seq<string>)
    requires a.personAge == b.personAge && a.personIncome == b.personIncome
    requires a.loanAmnt == b.loanAmnt && a.loanPercentIncome == b.loanPercentIncome
    requires a.credHistLength == b.credHistLength
    ensures EncodedRow(a, featureCols) == EncodedRow(b, featureCols)
  {
    EncodedInputIsNumeric(a);
    EncodedInputIsNumeric(b);
    assert NumericRow(a) == NumericRow(b);
  }

  /** Lines 72-82 as the dashboard runs them: build the input frame,
      one-hot encode it, add the missing schema columns, select the schema. */
  method EncodeInput(a: Applicant, featureCols: seq<string>) returns (encoded: Row)
    ensures encoded == EncodedRow(a, featureCols)
  {
    var inputDf := InputRow(a);
    var dummies := GetDummies(inputDf, CatCols, true);
    var filled := AddMissingColumns(dummies, featureCols);
    encoded := Select(filled, featureCols);
  }
}
