/**
 * `compute_findings` in recon/rules.py: the strict rules run over the
 * unmatched bank transactions. Duplicates are transactions sharing both
 * amount and date with another one; high-value transactions are those at
 * or above the 90th percentile of the amounts.
 */
module Rules {
  import opened Wrappers
  import opened Tables
  import opened Quantiles

  /** The amount column holds something that is neither a number nor missing, so the percentile cannot be taken. */
  datatype RulesError = NonNumericAmount

  /** The pair `duplicated(subset=['amount', 'date'])` compares; missing values compare equal. */
  function DupKey(t: Table, r: nat): (Value, Value)
    requires Rectangular(t) && r < |t.rows|
  {
    (Cell(t, r, "amount"), Cell(t, r, "date"))
  }

  function DupKeys(t: Table): (keys: seq<(Value, Value)>)
    requires Rectangular(t)
    ensures |keys| == |t.rows|
    ensures forall r :: 0 <= r < |t.rows| ==> keys[r] == DupKey(t, r)
  {
    seq(|t.rows|, r requires 0 <= r < |t.rows| => DupKey(t, r))
  }

  /** `duplicated(keep=False)`: every row whose key occurs at least twice. */
  function DuplicateMask(t: Table): (mask: seq<bool>)
    requires Rectangular(t)
    ensures |mask| == |t.rows|
  {
    var keys := DupKeys(t);
    seq(|keys|, r requires 0 <= r < |keys| => multiset(keys)[keys[r]] >= 2)
  }

  /** An element occurs at least twice exactly when another position holds it too. */
  lemma CountAtLeastTwo<K>(s: seq<K>, r: nat)
    requires r < |s|
    ensures multiset(s)[s[r]] >= 2 <==> exists r' :: 0 <= r' < |s| && r' != r && s[r'] == s[r]
  {
    var x := s[r];
    var before, after := s[..r], s[r + 1..];
    assert s == before + [x] + after;
    assert multiset(s)[x] == multiset(before)[x] + 1 + multiset(after)[x];
    if multiset(s)[x] >= 2 {
      if x in multiset(before) {
        var i :| 0 <= i < |before| && before[i] == x;
        assert s[i] == x;
      } else {
        assert x in multiset(after);
        var i :| 0 <= i < |after| && after[i] == x;
        assert s[r + 1 + i] == x;
      }
    }
    if exists r' :: 0 <= r' < |s| && r' != r && s[r'] == x {
      var r' :| 0 <= r' < |s| && r' != r && s[r'] == x;
      if r' < r {
        assert before[r'] == x;
        assert x in multiset(before);
      } else {
        assert after[r' - r - 1] == x;
        assert x in multiset(after);
      }
    }
  }

  /** A row is flagged as a duplicate exactly when another row has the same amount and date. */
  lemma DuplicateMaskMeaning(t: Table, r: nat)
    requires Rectangular(t) && r < |t.rows|
    ensures DuplicateMask(t)[r] <==>
            exists r' :: 0 <= r' < |t.rows| && r' != r && DupKey(t, r') == DupKey(t, r)
  {
    var keys := DupKeys(t);
    CountAtLeastTwo(keys, r);
    if exists r' :: 0 <= r' < |t.rows| && r' != r && DupKey(t, r') == DupKey(t, r) {
      var r' :| 0 <= r' < |t.rows| && r' != r && DupKey(t, r') == DupKey(t, r);
      assert keys[r'] == keys[r];
    }
  }

  /** The duplicate frame never holds exactly one transaction: duplicates come at least in pairs. */
  lemma DuplicatesNeverSingle(t: Table)
    requires Rectangular(t)
    ensures |MaskIndices(DuplicateMask(t))| != 1
  {
    var mask := DuplicateMask(t);
    var ix := MaskIndices(mask);
    if |ix| > 0 {
      var r := ix[0];
      assert mask[r];
      DuplicateMaskMeaning(t, r);
      var r' :| 0 <= r' < |t.rows| && r' != r && DupKey(t, r') == DupKey(t, r);
      DuplicateMaskMeaning(t, r');
      assert r' in ix;
      var k :| 0 <= k < |ix| && ix[k] == r';
      assert k != 0;
    }
  }

  /** Which cells hold an amount. */
  function NumMask(cells: seq<Value>): (mask: seq<bool>)
    ensures |mask| == |cells|
  {
    seq(|cells|, i requires 0 <= i < |cells| => cells[i].Num?)
  }

  /** `vals` are the amounts of the numeric cells, one per cell and in order. */
  predicate AmountsByRank(cells: seq<Value>, vals: seq<int>)
  {
    var ix := MaskIndices(NumMask(cells));
    |vals| == |ix| && forall j :: 0 <= j < |vals| ==> cells[ix[j]] == Num(vals[j])
  }

  /**
   * The present amounts, in row order: one value per numeric cell, each
   * the amount of the cell at the same rank among the numeric cells.
   */
  function PresentAmounts(cells: seq<Value>): (vals: seq<int>)
    ensures |vals| == |MaskIndices(NumMask(cells))|
    ensures forall j :: 0 <= j < |vals| ==>
              cells[MaskIndices(NumMask(cells))[j]] == Num(vals[j])
    ensures forall i :: 0 <= i < |vals| ==> Num(vals[i]) in cells
    ensures forall j :: 0 <= j < |cells| && cells[j].Num? ==> cells[j].cents in vals
    decreases |cells|
  {
    if cells == [] then []
    else
      var n := |cells| - 1;
      var rest := PresentAmounts(cells[..n]);
      var vals := rest + (if cells[n].Num? then [cells[n].cents] else []);
      PresentAmountsStep(cells[..n], cells[n], rest);
      assert cells[..n] + [cells[n]] == cells;
      RankedAmountsPresent(cells, vals);
      vals
  }

  /** Appending a cell appends its amount, when it has one, to the ranked amounts. */
  lemma PresentAmountsStep(init: seq<Value>, c: Value, rest: seq<int>)
    requires AmountsByRank(init, rest)
    ensures AmountsByRank(init + [c], rest + (if c.Num? then [c.cents] else []))
  {
    var cells := init + [c];
    var n := |init|;
    var m := NumMask(cells);
    assert m[..n] == NumMask(init);
    var ix := MaskIndices(m);
    assert ix == MaskIndices(m[..n]) + (if m[n] then [n] else []);
    var vals := rest + (if c.Num? then [c.cents] else []);
    forall j | 0 <= j < |vals| ensures cells[ix[j]] == Num(vals[j]) {
      if j < |rest| {
        assert cells[ix[j]] == init[MaskIndices(NumMask(init))[j]];
      }
    }
  }

  /** Ranked amounts are exactly the amounts present in the cells. */
  lemma RankedAmountsPresent(cells: seq<Value>, vals: seq<int>)
    requires AmountsByRank(cells, vals)
    ensures forall i :: 0 <= i < |vals| ==> Num(vals[i]) in cells
    ensures forall j :: 0 <= j < |cells| && cells[j].Num? ==> cells[j].cents in vals
  {
    var ix := MaskIndices(NumMask(cells));
    forall j | 0 <= j < |cells| && cells[j].Num? ensures cells[j].cents in vals {
      assert NumMask(cells)[j];
      var k :| 0 <= k < |ix| && ix[k] == j;
      assert cells[ix[k]] == Num(vals[k]);
    }
  }

  /** `amount.quantile(0.90)`, None (NaN) when no amount is present. */
  function Threshold(t: Table): Option<real>
    requires Rectangular(t)
  {
    var vals := PresentAmounts(Column(t, "amount"));
    if vals == [] then None else Some(Quantile90(vals))
  }

  /** `amount >= threshold`: false for a missing amount and for a NaN threshold. */
  function HighValueMask(t: Table): (mask: seq<bool>)
    requires Rectangular(t)
    ensures |mask| == |t.rows|
  {
    var threshold := Threshold(t);
    seq(|t.rows|, r requires 0 <= r < |t.rows| =>
      var c := Cell(t, r, "amount");
      c.Num? && threshold.Some? && c.cents as real >= threshold.value)
  }

  /** Every amount cell is a number or missing. */
  predicate AmountsNumeric(t: Table)
    requires Rectangular(t)
  {
    forall r :: 0 <= r < |t.rows| ==> Cell(t, r, "amount").Num? || Cell(t, r, "amount").Null?
  }

  /** Rule 1 applies: rows present and both the amount and the date column. */
  predicate DuplicateRuleApplies(t: Table)
  {
    !IsEmpty(t) && "amount" in t.header && "date" in t.header
  }

  /** Rule 2 applies: rows present and an amount column. */
  predicate HighValueRuleApplies(t: Table)
  {
    !IsEmpty(t) && "amount" in t.header
  }

  /**
   * `compute_findings(matches, bank_unmatched, inv_unmatched)`. Only the
   * unmatched bank transactions are looked at. `duplicate_txn` is always
   * present, empty when rule 1 does not apply; `high_value_unmatched` is
   * present exactly when rule 2 applies. Rule 2 fails on an amount column
   * that is not numeric, and then no finding is returned at all.
   */
  function ComputeFindings(matches: seq<map<string, Value>>, bankUnmatched: Table, invUnmatched: Table)
    : (r: Result<map<string, Table>, RulesError>)
    requires Rectangular(bankUnmatched)
    ensures r.Err? <==> HighValueRuleApplies(bankUnmatched) && !AmountsNumeric(bankUnmatched)
    ensures r.Ok? ==> "duplicate_txn" in r.value
    ensures r.Ok? ==> ("high_value_unmatched" in r.value <==> HighValueRuleApplies(bankUnmatched))
    ensures r.Ok? ==> r.value.Keys <= {"duplicate_txn", "high_value_unmatched"}
    ensures r.Ok? ==> r.value["duplicate_txn"].header == (if DuplicateRuleApplies(bankUnmatched) then bankUnmatched.header else [])
  {
    var b := bankUnmatched;
    var duplicates := if DuplicateRuleApplies(b) then SelectRows(b, DuplicateMask(b)) else EmptyFrame;
    if HighValueRuleApplies(b) then
      if AmountsNumeric(b) then
        Ok(map["duplicate_txn" := duplicates, "high_value_unmatched" := SelectRows(b, HighValueMask(b))])
      else
        Err(NonNumericAmount)
    else
      Ok(map["duplicate_txn" := duplicates])
  }

  /** The findings depend on the unmatched bank transactions alone. */
  lemma FindingsIgnoreMatchesAndInvoices(m1: seq<map<string, Value>>, m2: seq<map<string, Value>>,
                                         b: Table, i1: Table, i2: Table)
    requires Rectangular(b)
    ensures ComputeFindings(m1, b, i1) == ComputeFindings(m2, b, i2)
  {
  }

  /** The duplicate finding holds exactly the transactions sharing amount and date with another, in order. */
  lemma DuplicateFindingRows(b: Table, i: Table, m: seq<map<string, Value>>)
    requires Rectangular(b) && DuplicateRuleApplies(b) && AmountsNumeric(b)
    ensures ComputeFindings(m, b, i).value["duplicate_txn"] == SelectRows(b, DuplicateMask(b))
  {
  }

  /** The high-value finding holds exactly the transactions at or above the threshold, in order. */
  lemma HighValueFindingRows(b: Table, i: Table, m: seq<map<string, Value>>)
    requires Rectangular(b) && HighValueRuleApplies(b) && AmountsNumeric(b)
    ensures ComputeFindings(m, b, i).value["high_value_unmatched"] == SelectRows(b, HighValueMask(b))
  {
  }

  /**
   * Some transaction is at or above the threshold whenever an amount is
   * present: the largest amount is.
   */
  lemma HighValueNonEmpty(t: Table)
    requires Rectangular(t) && Threshold(t).Some?
    ensures exists r :: 0 <= r < |t.rows| && HighValueMask(t)[r]
  {
    var vals := PresentAmounts(Column(t, "amount"));
    var i := QuantileReached(vals);
    var r := AmountRow(t, vals[i]);
    FlaggedAtThreshold(t, r);
  }

  /** A present amount comes from some row. */
  lemma AmountRow(t: Table, x: int) returns (r: nat)
    requires Rectangular(t) && Num(x) in Column(t, "amount")
    ensures r < |t.rows| && Cell(t, r, "amount") == Num(x)
  {
    var col := Column(t, "amount");
    r :| 0 <= r < |col| && col[r] == Num(x);
  }

  /** A present amount at or above the threshold is flagged. */
  lemma FlaggedAtThreshold(t: Table, r: nat)
    requires Rectangular(t) && r < |t.rows| && Threshold(t).Some?
    requires Cell(t, r, "amount").Num? && Cell(t, r, "amount").cents as real >= Threshold(t).value
    ensures HighValueMask(t)[r]
  {
  }

  /** A transaction with the largest amount is always flagged. */
  lemma HighValueMaxFlagged(t: Table, r: nat)
    requires Rectangular(t) && r < |t.rows| && Cell(t, r, "amount").Num?
    requires forall r' :: 0 <= r' < |t.rows| && Cell(t, r', "amount").Num? ==>
               Cell(t, r', "amount").cents <= Cell(t, r, "amount").cents
    ensures HighValueMask(t)[r]
  {
    var col := Column(t, "amount");
    var vals := PresentAmounts(col);
    var m := Cell(t, r, "amount").cents;
    assert m in vals;
    forall i | 0 <= i < |vals|
      ensures vals[i] <= m
    {
      assert Num(vals[i]) in col;
      var r' :| 0 <= r' < |col| && col[r'] == Num(vals[i]);
    }
    QuantileAtMostMax(vals, m);
    FlaggedAtThreshold(t, r);
  }

  /**
   * The flagged set is closed upwards: a transaction whose amount is at
   * least a flagged one's is flagged too; a missing amount never is.
   */
  lemma HighValueUpwardClosed(t: Table, r: nat, r': nat)
    requires Rectangular(t) && r < |t.rows| && r' < |t.rows|
    ensures HighValueMask(t)[r] ==> Cell(t, r, "amount").Num?
    ensures (HighValueMask(t)[r] && Cell(t, r', "amount").Num? &&
             Cell(t, r', "amount").cents >= Cell(t, r, "amount").cents) ==> HighValueMask(t)[r']
  {
  }
}
