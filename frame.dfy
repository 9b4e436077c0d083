/** A one-row pandas DataFrame, as the dashboard builds one per applicant:
    an ordered list of (column name, cell) pairs.  Column lookup and
    column selection behave as pandas does on such a frame. */
module Frame {

  /** The cell values the dashboard's frames hold: integers from the number
      inputs and the zero fill, a float from the slider, strings from the
      select boxes and booleans from one-hot encoding. */
  datatype Cell = IntCell(i: int) | RealCell(r: real) | StrCell(s: string) | BoolCell(b: bool)

  type Row = seq<(string, Cell)>

  /** `frame.columns`: the column names in order. */
  function Names(row: Row): seq<string>
  {
    seq(|row|, k requires 0 <= k < |row| => row[k].0)
  }

  /** `frame[name]` on a frame whose column names are distinct: the cell of
      the first column called `name`. */
  function Lookup(row: Row, name: string): (c: Cell)
    requires name in Names(row)
    ensures exists k :: 0 <= k < |row| && row[k] == (name, c)
    decreases |row|
  {
    if row[0].0 == name then row[0].1
    else
      assert name in Names(row[1..]) by {
        var k :| 0 <= k < |row| && Names(row)[k] == name;
        assert Names(row[1..])[k - 1] == name;
      }
      var c := Lookup(row[1..], name);
      assert exists k :: 0 <= k < |row| && row[k] == (name, c) by {
        var k :| 0 <= k < |row| - 1 && row[1..][k] == (name, c);
        assert row[k + 1] == (name, c);
      }
      c
  }

  /** Appending columns after `row` does not change what a name already
      present in `row` looks up to: the first match stays in front. */
  lemma {:induction false} LookupAppend(row: Row, tail: Row, name: string)
    requires name in Names(row)
    ensures name in Names(row + tail)
    ensures Lookup(row + tail, name) == Lookup(row, name)
    decreases |row|
  {
    var k :| 0 <= k < |row| && Names(row)[k] == name;
    assert Names(row + tail)[k] == name;
    if row[0].0 != name {
      assert Names(row[1..])[k - 1] == name;
      assert (row + tail)[1..] == row[1..] + tail;
      LookupAppend(row[1..], tail, name);
    }
  }

  /** `frame[cols]` (dashboard/app.py line 82): a new frame holding exactly
      the columns `cols`, in that order, each with the value the frame has
      under that name.  pandas raises a KeyError for a missing name, hence
      the precondition. */
  function Select(row: Row, cols: seq<string>): (r: Row)
    requires forall c :: c in cols ==> c in Names(row)
    ensures Names(r) == cols
    ensures forall k :: 0 <= k < |cols| ==> r[k].1 == Lookup(row, cols[k])
  {
    seq(|cols|, k requires 0 <= k < |cols| => (cols[k], Lookup(row, cols[k])))
  }
}
