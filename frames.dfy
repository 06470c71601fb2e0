/**
 * A pandas data frame as the preprocessing step uses it: a copy that is
 * then changed in place by renaming and lower-casing its labels, adding
 * missing columns (`_ensure_cols` in recon/matcher.py) and assigning
 * whole columns.
 */
module Frames {
  import opened Chars
  import opened Tables

  /** `rename(columns=aliases)`: labels with an alias take it, others stay. */
  function Renamed(h: seq<string>, aliases: map<string, string>): (h': seq<string>)
    ensures |h'| == |h|
    ensures forall i :: 0 <= i < |h| ==> h'[i] == if h[i] in aliases then aliases[h[i]] else h[i]
  {
    seq(|h|, i requires 0 <= i < |h| => if h[i] in aliases then aliases[h[i]] else h[i])
  }

  /** `columns.str.lower()`. */
  function Lowered(h: seq<string>): (h': seq<string>)
    ensures |h'| == |h| && forall i :: 0 <= i < |h| ==> h'[i] == Lower(h[i])
  {
    seq(|h|, i requires 0 <= i < |h| => Lower(h[i]))
  }

  function Nulls(n: nat): (col: seq<Value>)
    ensures |col| == n && forall i :: 0 <= i < n ==> col[i] == Null
  {
    seq(n, _ => Null)
  }

  /** The frame after `_ensure_cols(df, cols)`: each absent column is added, filled with Null. */
  function EnsuredCols(t: Table, cols: seq<string>): (t': Table)
    requires Rectangular(t)
    ensures Rectangular(t') && |t'.rows| == |t.rows|
    decreases |cols|
  {
    if cols == [] then t
    else
      var c := cols[0];
      EnsuredCols(if c in t.header then t else WithColumn(t, c, Nulls(|t.rows|)), cols[1..])
  }

  /** Ensuring columns changes no cell that can be read: added columns read as Null anyway. */
  lemma {:induction false} EnsuredColsCells(t: Table, cols: seq<string>, r: nat, x: string)
    requires Rectangular(t) && r < |t.rows|
    ensures Cell(EnsuredCols(t, cols), r, x) == Cell(t, r, x)
    decreases |cols|
  {
    if cols != [] {
      var c := cols[0];
      var u := if c in t.header then t else WithColumn(t, c, Nulls(|t.rows|));
      if c !in t.header {
        CellWithColumn(t, c, Nulls(|t.rows|), r, x);
        if x == c {
          assert IndexOf(t.header, c) == |t.header|;
        }
      }
      EnsuredColsCells(u, cols[1..], r, x);
    }
  }

  /** The labels after `_ensure_cols(df, cols)`. */
  function EnsuredLabels(h: seq<string>, cols: seq<string>): seq<string>
    decreases |cols|
  {
    if cols == [] then h else EnsuredLabels(AddLabel(h, cols[0]), cols[1..])
  }

  lemma {:induction false} EnsuredColsHeader(t: Table, cols: seq<string>)
    requires Rectangular(t)
    ensures EnsuredCols(t, cols).header == EnsuredLabels(t.header, cols)
    decreases |cols|
  {
    if cols != [] {
      var c := cols[0];
      var u := if c in t.header then t else WithColumn(t, c, Nulls(|t.rows|));
      EnsuredColsHeader(u, cols[1..]);
    }
  }

  /**
   * Ensuring columns adds every requested column, keeps the old labels as
   * a prefix, adds nothing else and keeps labels unique.
   */
  lemma {:induction false} EnsuredLabelsSchema(h: seq<string>, cols: seq<string>)
    ensures var h' := EnsuredLabels(h, cols);
            && h <= h'
            && LabelSet(h') == LabelSet(h) + LabelSet(cols)
            && (Distinct(h) ==> Distinct(h'))
    decreases |cols|
  {
    if cols != [] {
      var u := AddLabel(h, cols[0]);
      AddLabelSchema(h, cols[0]);
      EnsuredLabelsSchema(u, cols[1..]);
      assert cols == [cols[0]] + cols[1..];
      assert LabelSet(cols) == {cols[0]} + LabelSet(cols[1..]);
    }
  }

  class Frame {
    var header: seq<string>
    var rows: seq<seq<Value>>

    function View(): Table
      reads this
    {
      Table(header, rows)
    }

    /** `df.copy()`. */
    constructor Copy(t: Table)
      ensures View() == t
    {
      header := t.header;
      rows := t.rows;
    }

    method Rename(aliases: map<string, string>)
      modifies this
      ensures header == Renamed(old(header), aliases) && rows == old(rows)
    {
      header := Renamed(header, aliases);
    }

    method LowerColumns()
      modifies this
      ensures header == Lowered(old(header)) && rows == old(rows)
    {
      header := Lowered(header);
    }

    /** `df[name] = vals`. */
    method Assign(name: string, vals: seq<Value>)
      requires Rectangular(View()) && |vals| == |rows|
      modifies this
      ensures View() == WithColumn(old(View()), name, vals)
    {
      var t := WithColumn(View(), name, vals);
      header, rows := t.header, t.rows;
    }

    /** `_ensure_cols(df, cols)`. */
    method EnsureCols(cols: seq<string>)
      requires Rectangular(View())
      modifies this
      ensures Rectangular(View())
      ensures View() == EnsuredCols(old(View()), cols)
    {
      var k := 0;
      while k < |cols|
        invariant 0 <= k <= |cols|
        invariant Rectangular(View())
        invariant EnsuredCols(View(), cols[k..]) == EnsuredCols(old(View()), cols)
      {
        var c := cols[k];
        assert cols[k..][1..] == cols[k + 1..];
        if c !in header {
          Assign(c, Nulls(|rows|));
        }
        k := k + 1;
      }
    }
  }
}
