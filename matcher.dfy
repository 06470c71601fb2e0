/**
 * `match` in recon/matcher.py: preprocessing of both frames, then the
 * exact-reference pass. Every bank row whose extracted code names an
 * invoice through the invoice reference lookup is paired with that
 * invoice when the invoice is still unmatched and both amounts are
 * present and differ by less than five cents. The bank rows are visited
 * in ascending index order.
 */
module Matcher {
  import opened Wrappers
  import opened Chars
  import opened Tables
  import opened Frames
  import opened Preparation
  import opened PreparationSpec
  import opened Preprocessing

  /** A finding: a data frame, or a list of records (`partials`). */
  datatype Finding = TableFinding(table: Table) | ListFinding(items: seq<map<string, Value>>)

  /** One matched pair: the bank and invoice row positions and the record stored in `matches`. */
  datatype Pairing = Pairing(txn: nat, inv: nat, record: map<string, Value>)

  datatype MatchOutput = MatchOutput(
    matches: seq<Pairing>,
    unmatchedTxns: Table,
    unmatchedInvs: Table,
    findings: map<string, Finding>)

  /** The lookup key of an invoice reference: its stripped, upper-cased text; a missing reference has none. */
  function RefKey(v: Value): (k: Option<string>)
    ensures v.Null? <==> k.None?
  {
    if v.Null? then None else Some(Upper(Strip(TextOf(v))))
  }

  /**
   * A dictionary built from (key, position) pairs in order: every key
   * present maps to a position that carries it, and to none earlier than
   * any other position carrying it, so the LAST such position wins.
   */
  function RefLookup(keys: seq<Option<string>>): (m: map<string, nat>)
    ensures forall k :: k in m ==> m[k] < |keys| && keys[m[k]] == Some(k)
    ensures forall i :: 0 <= i < |keys| && keys[i].Some? ==> keys[i].value in m && i <= m[keys[i].value]
    decreases |keys|
  {
    if keys == [] then map[]
    else
      var n := |keys| - 1;
      var m := RefLookup(keys[..n]);
      assert forall i :: 0 <= i < n ==> keys[..n][i] == keys[i];
      match keys[n]
      case None => m
      case Some(k) => m[k := n]
  }

  function ReferenceKeys(inv: Table): (keys: seq<Option<string>>)
    requires Rectangular(inv)
    ensures |keys| == |inv.rows|
    ensures forall i :: 0 <= i < |inv.rows| ==> keys[i] == RefKey(Cell(inv, i, "reference"))
  {
    seq(|inv.rows|, i requires 0 <= i < |inv.rows| => RefKey(Cell(inv, i, "reference")))
  }

  /** `inv_by_ref`: invoice positions by reference key, the last invoice winning. */
  function InvByRef(inv: Table): (m: map<string, nat>)
    requires Rectangular(inv)
    ensures forall k :: k in m ==> m[k] < |inv.rows|
  {
    RefLookup(ReferenceKeys(inv))
  }

  /** The amount tolerance: both present and less than five cents apart. */
  predicate Tolerated(b: Option<int>, i: Option<int>)
  {
    b.Some? && i.Some? && -5 < b.value - i.value < 5
  }

  /** `df['amount'].to_dict()`: the amount of every row, None where it is missing. */
  function Amounts(t: Table): (a: seq<Option<int>>)
    requires Rectangular(t)
    ensures |a| == |t.rows|
  {
    seq(|t.rows|, r requires 0 <= r < |t.rows| => AmountOf(Cell(t, r, "amount")))
  }

  /** The extracted code of every bank row. */
  function Codes(bank: Table): (codes: seq<string>)
    requires Rectangular(bank)
    ensures |codes| == |bank.rows|
  {
    seq(|bank.rows|, r requires 0 <= r < |bank.rows| => TextOf(Cell(bank, r, "_extracted_ref")))
  }

  /**
   * The invoice a bank row can claim: the one its code names in the
   * lookup, provided the two amounts agree within the tolerance.
   */
  function Claim(code: string, amount: Option<int>, lookup: map<string, nat>, invAmounts: seq<Option<int>>): Option<nat>
  {
    if code in lookup && lookup[code] < |invAmounts| && Tolerated(amount, invAmounts[lookup[code]])
    then Some(lookup[code])
    else None
  }

  function Claims(codes: seq<string>, amounts: seq<Option<int>>, lookup: map<string, nat>, invAmounts: seq<Option<int>>): (ts: seq<Option<nat>>)
    requires |codes| == |amounts|
    ensures |ts| == |codes|
    ensures forall b :: 0 <= b < |codes| && ts[b].Some? ==> ts[b].value < |invAmounts|
  {
    seq(|codes|, b requires 0 <= b < |codes| => Claim(codes[b], amounts[b], lookup, invAmounts))
  }

  /** The claim of every bank row on the invoices. */
  function Targets(bank: Table, inv: Table): (ts: seq<Option<nat>>)
    requires Rectangular(bank) && Rectangular(inv)
    ensures |ts| == |bank.rows|
  {
    Claims(Codes(bank), Amounts(bank), InvByRef(inv), Amounts(inv))
  }

  /**
   * Bank row `b` claims invoice `i` exactly when its extracted code is a
   * key of the invoice lookup that leads to `i`, and both amounts are
   * present and less than five cents apart.
   */
  lemma TargetsMeaning(bank: Table, inv: Table, b: nat, i: nat)
    requires Rectangular(bank) && Rectangular(inv) && b < |bank.rows|
    ensures var code := TextOf(Cell(bank, b, "_extracted_ref"));
            Targets(bank, inv)[b] == Some(i) <==>
              && code in InvByRef(inv) && InvByRef(inv)[code] == i
              && Tolerated(AmountOf(Cell(bank, b, "amount")), AmountOf(Cell(inv, i, "amount")))
  {
  }

  /** Some bank row before `upto` claims invoice `i`. */
  predicate Claimed(ts: seq<Option<nat>>, upto: nat, i: nat)
    requires upto <= |ts|
  {
    exists b :: 0 <= b < upto && ts[b] == Some(i)
  }

  /** Bank row `b` is the first to claim its invoice. */
  predicate FirstClaim(ts: seq<Option<nat>>, b: nat)
    requires b < |ts|
  {
    ts[b].Some? && !Claimed(ts, b, ts[b].value)
  }

  /** The record of one match: the bank row's fields, overwritten by the invoice's, and the match type. */
  function Record(bank: Table, inv: Table, b: nat, i: nat): map<string, Value>
    requires Rectangular(bank) && Rectangular(inv) && b < |bank.rows| && i < |inv.rows|
  {
    RowDict(bank, b) + RowDict(inv, i) + map["match_type" := Str("exact_ref")]
  }

  /**
   * A match record holds every label of both rows and `match_type`; the
   * invoice's cell wins on a label both frames have.
   */
  lemma RecordFields(bank: Table, inv: Table, b: nat, i: nat)
    requires Rectangular(bank) && Rectangular(inv) && b < |bank.rows| && i < |inv.rows|
    ensures var rec := Record(bank, inv, b, i);
            && rec.Keys == LabelSet(bank.header) + LabelSet(inv.header) + {"match_type"}
            && rec["match_type"] == Str("exact_ref")
            && (forall c :: c in inv.header && c != "match_type" ==> rec[c] == Cell(inv, i, c))
            && (forall c :: c in bank.header && c !in inv.header && c != "match_type" ==> rec[c] == Cell(bank, b, c))
  {
    var db, di := RowDict(bank, b), RowDict(inv, i);
    var rec := Record(bank, inv, b, i);
    assert rec == db + di + map["match_type" := Str("exact_ref")];
    assert db.Keys == LabelSet(bank.header) && di.Keys == LabelSet(inv.header);
    forall c | c in inv.header && c != "match_type" ensures rec[c] == Cell(inv, i, c) {
      assert c in di;
    }
    forall c | c in bank.header && c !in inv.header && c != "match_type" ensures rec[c] == Cell(bank, b, c) {
      assert c in db && c !in di;
    }
  }

  /** All row positions of a frame with `n` rows: `set(df.index)`. */
  function IndexSet(n: nat): (s: set<nat>)
    ensures forall i: nat :: i in s <==> i < n
  {
    if n == 0 then {} else IndexSet(n - 1) + {n - 1}
  }

  /**
   * The pairs are the first claims among the claims `ts` of the bank rows,
   * in row order: every pair is a row claiming an invoice no earlier row
   * claimed, and every such row is paired.
   */
  ghost predicate PairsAreFirstClaims(ts: seq<Option<nat>>, pairs: seq<Pairing>)
  {
    && (forall k :: 0 <= k < |pairs| ==>
          pairs[k].txn < |ts| && ts[pairs[k].txn] == Some(pairs[k].inv) && FirstClaim(ts, pairs[k].txn))
    && (forall k, l :: 0 <= k < l < |pairs| ==> pairs[k].txn < pairs[l].txn)
    && (forall b :: 0 <= b < |ts| && FirstClaim(ts, b) ==> exists k :: 0 <= k < |pairs| && pairs[k].txn == b)
  }

  /**
   * The outcome of the first-claim discipline on `m` invoices: the pairs
   * are the first claims, the unmatched rows the others, and the
   * unmatched invoices those nobody claims.
   */
  ghost predicate FirstClaims(ts: seq<Option<nat>>, m: nat, pairs: seq<Pairing>, txnLeft: set<nat>, invLeft: set<nat>)
  {
    && PairsAreFirstClaims(ts, pairs)
    && (forall b: nat :: b in txnLeft <==> b < |ts| && !FirstClaim(ts, b))
    && (forall i: nat :: i in invLeft <==> i < m && !Claimed(ts, |ts|, i))
  }

  /** Rows of the bank frame left unmatched: those that are not a first claim. */
  function UnmatchedTxnMask(ts: seq<Option<nat>>): (mask: seq<bool>)
    ensures |mask| == |ts|
  {
    seq(|ts|, b requires 0 <= b < |ts| => !FirstClaim(ts, b))
  }

  /** Invoices left unmatched: those no bank row claims. */
  function UnclaimedMask(ts: seq<Option<nat>>, m: nat): (mask: seq<bool>)
    ensures |mask| == m
  {
    seq(m, i requires 0 <= i < m => !Claimed(ts, |ts|, i))
  }

  /** The matched pairs of the two prepared frames: the first claims, each with its record. */
  ghost predicate MatchedPairs(bank: Table, inv: Table, pairs: seq<Pairing>)
    requires Rectangular(bank) && Rectangular(inv)
  {
    && PairsAreFirstClaims(Targets(bank, inv), pairs)
    && forall k :: 0 <= k < |pairs| ==>
         pairs[k].txn < |bank.rows| && pairs[k].inv < |inv.rows| &&
         pairs[k].record == Record(bank, inv, pairs[k].txn, pairs[k].inv)
  }

  /** What the exact-reference pass produces: the matched pairs, and the unmatched rows of each frame. */
  ghost predicate ExactRefOutcome(bank: Table, inv: Table, pairs: seq<Pairing>, txnLeft: set<nat>, invLeft: set<nat>)
    requires Rectangular(bank) && Rectangular(inv)
  {
    && MatchedPairs(bank, inv, pairs)
    && FirstClaims(Targets(bank, inv), |inv.rows|, pairs, txnLeft, invLeft)
  }

  /** The first-claim discipline after the bank rows before `bi` have been visited. */
  ghost predicate ClaimsSoFar(ts: seq<Option<nat>>, m: nat, bi: nat, pairs: seq<Pairing>, txnLeft: set<nat>, invLeft: set<nat>)
    requires bi <= |ts|
  {
    && (forall k :: 0 <= k < |pairs| ==>
          pairs[k].txn < bi && ts[pairs[k].txn] == Some(pairs[k].inv) && FirstClaim(ts, pairs[k].txn))
    && (forall k, l :: 0 <= k < l < |pairs| ==> pairs[k].txn < pairs[l].txn)
    && (forall b :: 0 <= b < bi && FirstClaim(ts, b) ==> exists k :: 0 <= k < |pairs| && pairs[k].txn == b)
    && (forall b: nat :: b in txnLeft <==> b < |ts| && !(b < bi && FirstClaim(ts, b)))
    && (forall i: nat :: i in invLeft <==> i < m && !Claimed(ts, bi, i))
  }

  /**
   * One visit: a row whose claimed invoice is still unmatched is paired
   * with it, and any other row stays unmatched.
   */
  lemma {:induction false} ClaimStep(ts: seq<Option<nat>>, m: nat, bi: nat, pairs: seq<Pairing>,
                                     txnLeft: set<nat>, invLeft: set<nat>, rec: map<string, Value>)
    requires bi < |ts| && ClaimsSoFar(ts, m, bi, pairs, txnLeft, invLeft)
    requires ts[bi].Some? ==> ts[bi].value < m
    ensures ts[bi].Some? && ts[bi].value in invLeft ==>
              ClaimsSoFar(ts, m, bi + 1, pairs + [Pairing(bi, ts[bi].value, rec)], txnLeft - {bi}, invLeft - {ts[bi].value})
    ensures !(ts[bi].Some? && ts[bi].value in invLeft) ==> ClaimsSoFar(ts, m, bi + 1, pairs, txnLeft, invLeft)
  {
    ClaimedStep(ts, bi);
    if ts[bi].Some? && ts[bi].value in invLeft {
      var pairs' := pairs + [Pairing(bi, ts[bi].value, rec)];
      assert FirstClaim(ts, bi);
      forall b | 0 <= b < bi + 1 && FirstClaim(ts, b)
        ensures exists k :: 0 <= k < |pairs'| && pairs'[k].txn == b
      {
        if b == bi {
          assert pairs'[|pairs|].txn == b;
        } else {
          var k :| 0 <= k < |pairs| && pairs[k].txn == b;
          assert pairs'[k].txn == b;
        }
      }
    } else {
      assert !FirstClaim(ts, bi);
    }
  }

  /**
   * The loop of the exact-reference pass, over the precomputed codes of
   * the bank rows, both amount dictionaries and the invoice lookup: row
   * `bi` is paired with invoice `lookup[code]` when that invoice is still
   * unmatched and the amounts agree; `recordOf` builds the stored record.
   */
  method ClaimPass(codes: seq<string>, bankAmounts: seq<Option<int>>, lookup: map<string, nat>,
                   invAmounts: seq<Option<int>>, recordOf: (nat, nat) -> map<string, Value>)
    returns (pairs: seq<Pairing>, txnLeft: set<nat>, invLeft: set<nat>)
    requires |codes| == |bankAmounts|
    ensures FirstClaims(Claims(codes, bankAmounts, lookup, invAmounts), |invAmounts|, pairs, txnLeft, invLeft)
    ensures forall k :: 0 <= k < |pairs| ==> pairs[k].record == recordOf(pairs[k].txn, pairs[k].inv)
  {
    ghost var ts := Claims(codes, bankAmounts, lookup, invAmounts);
    txnLeft := IndexSet(|codes|);
    invLeft := IndexSet(|invAmounts|);
    pairs := [];
    var bi := 0;
    while bi < |codes|
      invariant 0 <= bi <= |codes|
      invariant ClaimsSoFar(ts, |invAmounts|, bi, pairs, txnLeft, invLeft)
      invariant forall k :: 0 <= k < |pairs| ==> pairs[k].record == recordOf(pairs[k].txn, pairs[k].inv)
    {
      pairs, txnLeft, invLeft := VisitRow(codes, bankAmounts, lookup, invAmounts, recordOf, bi, pairs, txnLeft, invLeft);
      bi := bi + 1;
    }
    assert ClaimsSoFar(ts, |invAmounts|, |codes|, pairs, txnLeft, invLeft);
  }

  /**
   * One iteration of the exact-reference loop, on bank row `bi`: the row
   * is paired with invoice `lookup[code]` when that invoice is still
   * unmatched and the amounts agree within the tolerance.
   */
  method VisitRow(codes: seq<string>, bankAmounts: seq<Option<int>>, lookup: map<string, nat>,
                  invAmounts: seq<Option<int>>, recordOf: (nat, nat) -> map<string, Value>,
                  bi: nat, pairs: seq<Pairing>, txnLeft: set<nat>, invLeft: set<nat>)
    returns (pairs': seq<Pairing>, txnLeft': set<nat>, invLeft': set<nat>)
    requires |codes| == |bankAmounts| && bi < |codes|
    requires ClaimsSoFar(Claims(codes, bankAmounts, lookup, invAmounts), |invAmounts|, bi, pairs, txnLeft, invLeft)
    requires forall k :: 0 <= k < |pairs| ==> pairs[k].record == recordOf(pairs[k].txn, pairs[k].inv)
    ensures ClaimsSoFar(Claims(codes, bankAmounts, lookup, invAmounts), |invAmounts|, bi + 1, pairs', txnLeft', invLeft')
    ensures forall k :: 0 <= k < |pairs'| ==> pairs'[k].record == recordOf(pairs'[k].txn, pairs'[k].inv)
  {
    ghost var ts := Claims(codes, bankAmounts, lookup, invAmounts);
    ghost var t := ts[bi];
    assert t == Claim(codes[bi], bankAmounts[bi], lookup, invAmounts);
    ClaimStep(ts, |invAmounts|, bi, pairs, txnLeft, invLeft, if t.Some? then recordOf(bi, t.value) else map[]);
    pairs', txnLeft', invLeft' := pairs, txnLeft, invLeft;
    var code := codes[bi];
    if code in lookup {
      var ii := lookup[code];
      if ii in invLeft {
        var bAmt := bankAmounts[bi];
        var iAmt := invAmounts[ii];
        if bAmt.Some? && iAmt.Some? && -5 < bAmt.value - iAmt.value < 5 {
          assert t == Some(ii);
          pairs' := pairs + [Pairing(bi, ii, recordOf(bi, ii))];
          txnLeft' := txnLeft - {bi};
          invLeft' := invLeft - {ii};
        } else {
          assert t.None?;
        }
      } else {
        assert !(t.Some? && t.value in invLeft);
      }
    } else {
      assert t.None?;
    }
  }

  /** The exact-reference pass of `match`, over the prepared frames. */
  method ExactRefPass(bank: Table, inv: Table) returns (pairs: seq<Pairing>, txnLeft: set<nat>, invLeft: set<nat>)
    requires Rectangular(bank) && Rectangular(inv)
    ensures ExactRefOutcome(bank, inv, pairs, txnLeft, invLeft)
  {
    var recordOf := (b: nat, i: nat) =>
      if b < |bank.rows| && i < |inv.rows| then Record(bank, inv, b, i) else map[];
    pairs, txnLeft, invLeft := ClaimPass(Codes(bank), Amounts(bank), InvByRef(inv), Amounts(inv), recordOf);
  }

  /** Extending the prefix by one row claims exactly that row's invoice in addition. */
  lemma ClaimedStep(ts: seq<Option<nat>>, b: nat)
    requires b < |ts|
    ensures forall i: nat :: Claimed(ts, b + 1, i) <==> Claimed(ts, b, i) || ts[b] == Some(i)
  {
    forall i: nat | Claimed(ts, b + 1, i) && !Claimed(ts, b, i)
      ensures ts[b] == Some(i)
    {
      var w :| 0 <= w < b + 1 && ts[w] == Some(i);
    }
  }

  /**
   * The partition: no transaction and no invoice is matched twice, and a
   * transaction or an invoice is unmatched exactly when no pair holds it.
   */
  lemma {:induction false} PairsOneToOne(ts: seq<Option<nat>>, m: nat, pairs: seq<Pairing>, txnLeft: set<nat>, invLeft: set<nat>)
    requires FirstClaims(ts, m, pairs, txnLeft, invLeft)
    ensures forall k, l :: 0 <= k < l < |pairs| ==> pairs[k].txn != pairs[l].txn && pairs[k].inv != pairs[l].inv
    ensures forall b: nat :: b < |ts| ==> (b in txnLeft <==> forall k :: 0 <= k < |pairs| ==> pairs[k].txn != b)
    ensures forall i: nat :: i < m ==> (i in invLeft <==> forall k :: 0 <= k < |pairs| ==> pairs[k].inv != i)
  {
    forall b: nat | b < |ts|
      ensures b in txnLeft <==> forall k :: 0 <= k < |pairs| ==> pairs[k].txn != b
    {
      if b !in txnLeft {
        assert FirstClaim(ts, b);
      } else {
        forall k | 0 <= k < |pairs|
          ensures pairs[k].txn != b
        {
          assert FirstClaim(ts, pairs[k].txn);
        }
      }
    }
    forall k, l | 0 <= k < l < |pairs|
      ensures pairs[k].inv != pairs[l].inv
    {
      assert pairs[k].txn < pairs[l].txn;
    }
    forall i: nat | i < m
      ensures i in invLeft <==> forall k :: 0 <= k < |pairs| ==> pairs[k].inv != i
    {
      if i !in invLeft {
        var b :| 0 <= b < |ts| && ts[b] == Some(i);
        var first := FirstClaimantExists(ts, b);
        var k :| 0 <= k < |pairs| && pairs[k].txn == first;
        assert pairs[k].inv == i;
      } else {
        forall k | 0 <= k < |pairs|
          ensures pairs[k].inv != i
        {
          assert ts[pairs[k].txn] == Some(pairs[k].inv);
        }
      }
    }
  }

  /**
   * The partition on the pairs `match` returns: a bank row is left
   * unmatched exactly when no pair holds it, an invoice likewise, and no
   * row of either frame is in two pairs.
   */
  lemma MatchPartition(ts: seq<Option<nat>>, m: nat, pairs: seq<Pairing>)
    requires PairsAreFirstClaims(ts, pairs)
    ensures forall k, l :: 0 <= k < l < |pairs| ==> pairs[k].txn != pairs[l].txn && pairs[k].inv != pairs[l].inv
    ensures forall b :: 0 <= b < |ts| ==> (UnmatchedTxnMask(ts)[b] <==> forall k :: 0 <= k < |pairs| ==> pairs[k].txn != b)
    ensures forall i :: 0 <= i < m ==> (UnclaimedMask(ts, m)[i] <==> forall k :: 0 <= k < |pairs| ==> pairs[k].inv != i)
  {
    var txnLeft := set b: nat | b < |ts| && !FirstClaim(ts, b);
    var invLeft := set i: nat | i < m && !Claimed(ts, |ts|, i);
    assert FirstClaims(ts, m, pairs, txnLeft, invLeft);
    PairsOneToOne(ts, m, pairs, txnLeft, invLeft);
    LeftMasks(ts, m, pairs, txnLeft, invLeft);
  }

  /** Every claim has a first claimant: the earliest row claiming the same invoice. */
  lemma {:induction false} FirstClaimantExists(ts: seq<Option<nat>>, b: nat) returns (first: nat)
    requires b < |ts| && ts[b].Some?
    ensures first <= b && ts[first] == ts[b] && FirstClaim(ts, first)
    decreases b
  {
    if Claimed(ts, b, ts[b].value) {
      var e :| 0 <= e < b && ts[e] == ts[b];
      first := FirstClaimantExists(ts, e);
    } else {
      first := b;
    }
  }

  /**
   * A bank row without a code claims the last invoice whose reference is
   * blank but present text: such a reference becomes the empty key of the
   * lookup, and the empty code finds it.
   */
  lemma EmptyCodeClaimsBlankReference(bank: Table, inv: Table, b: nat, i: nat)
    requires Rectangular(bank) && Rectangular(inv) && b < |bank.rows| && i < |inv.rows|
    requires TextOf(Cell(bank, b, "_extracted_ref")) == ""
    requires Cell(inv, i, "reference").Str? && Strip(Cell(inv, i, "reference").text) == ""
    requires forall j :: i < j < |inv.rows| ==> RefKey(Cell(inv, j, "reference")) != Some("")
    requires Tolerated(AmountOf(Cell(bank, b, "amount")), AmountOf(Cell(inv, i, "amount")))
    ensures Targets(bank, inv)[b] == Some(i)
  {
    var keys := ReferenceKeys(inv);
    assert keys[i] == Some("");
    TargetsMeaning(bank, inv, b, i);
  }

  /**
   * Every matched pair is a bank row whose code is the stripped, upper-cased
   * reference of its invoice, that invoice is the last one carrying that
   * key, the amounts agree within the tolerance, no earlier bank row claims
   * the invoice, and the record is the merge of the two rows.
   */
  lemma MatchedPairConditions(bank: Table, inv: Table, pairs: seq<Pairing>, k: nat)
    requires Rectangular(bank) && Rectangular(inv) && MatchedPairs(bank, inv, pairs) && k < |pairs|
    ensures var b, i := pairs[k].txn, pairs[k].inv;
            && b < |bank.rows| && i < |inv.rows|
            && var code := TextOf(Cell(bank, b, "_extracted_ref"));
            && RefKey(Cell(inv, i, "reference")) == Some(code)
            && (forall j :: i < j < |inv.rows| ==> RefKey(Cell(inv, j, "reference")) != Some(code))
            && Tolerated(AmountOf(Cell(bank, b, "amount")), AmountOf(Cell(inv, i, "amount")))
            && (forall l :: 0 <= l < b ==> Targets(bank, inv)[l] != Some(i))
            && pairs[k].record == Record(bank, inv, b, i)
  {
    var b, i := pairs[k].txn, pairs[k].inv;
    var code := TextOf(Cell(bank, b, "_extracted_ref"));
    var keys := ReferenceKeys(inv);
    TargetsMeaning(bank, inv, b, i);
    assert keys[i] == Some(code);
    assert !Claimed(Targets(bank, inv), b, i);
  }

  /**
   * A bank code is empty or starts with a capital letter, while a number
   * or a date in an invoice's reference reads as text starting with a
   * digit or a sign: no bank row ever claims such an invoice.
   */
  lemma NonTextReferenceNeverClaimed(raw: Table, inv: Table, parseDate: DateParser, parseAmount: AmountParser, b: nat, i: nat)
    requires Rectangular(raw) && Rectangular(inv) && b < |raw.rows| && i < |inv.rows|
    requires Cell(inv, i, "reference").Num? || Cell(inv, i, "reference").Day?
    ensures Targets(PreparedBank(raw, parseDate, parseAmount), inv)[b] != Some(i)
  {
    var bank := PreparedBank(raw, parseDate, parseAmount);
    var code := CodeShape(raw, parseDate, parseAmount, b);
    var key := NonTextKeyShape(Cell(inv, i, "reference"));
    TargetsMeaning(bank, inv, b, i);
    assert ReferenceKeys(inv)[i] == Some(key);
  }

  /** A prepared bank code is empty or starts with a capital letter. */
  lemma CodeShape(raw: Table, parseDate: DateParser, parseAmount: AmountParser, b: nat) returns (code: string)
    requires Rectangular(raw) && b < |raw.rows|
    ensures code == TextOf(Cell(PreparedBank(raw, parseDate, parseAmount), b, "_extracted_ref"))
    ensures code == "" || IsUpper(code[0])
  {
    PreparedBankCode(raw, parseDate, parseAmount, b);
    code := TextOf(Cell(PreparedBank(raw, parseDate, parseAmount), b, "_extracted_ref"));
  }

  /** The lookup key of a number or a date starts with a digit or a sign. */
  lemma NonTextKeyShape(v: Value) returns (key: string)
    requires v.Num? || v.Day?
    ensures RefKey(v) == Some(key)
    ensures key != "" && !IsUpper(key[0])
  {
    StripKeepsFirst(TextOf(v));
    key := Upper(Strip(TextOf(v)));
  }


  /** The rows of a frame with `n` rows that are in `left`, as a mask: `loc[sorted(left)]`. */
  function MaskOf(left: set<nat>, n: nat): (mask: seq<bool>)
    ensures |mask| == n
  {
    seq(n, i requires 0 <= i < n => i in left)
  }

  /** The unmatched sets of the first-claim discipline, as masks. */
  lemma LeftMasks(ts: seq<Option<nat>>, m: nat, pairs: seq<Pairing>, txnLeft: set<nat>, invLeft: set<nat>)
    requires FirstClaims(ts, m, pairs, txnLeft, invLeft)
    ensures MaskOf(txnLeft, |ts|) == UnmatchedTxnMask(ts)
    ensures MaskOf(invLeft, m) == UnclaimedMask(ts, m)
  {
  }

  /** The findings `match` hands back: an empty `duplicate_txn` frame and no partial matches. */
  const PlaceholderFindings: map<string, Finding> :=
    map["duplicate_txn" := TableFinding(EmptyFrame), "partials" := ListFinding([])]

  /**
   * `match(bank_df, inv_df)`: preprocessing, the exact-reference pass, the
   * unmatched rows of each frame in index order with all their columns,
   * and the placeholder findings.
   */
  method Match(bankDf: Table, invDf: Table, parseDate: DateParser, parseAmount: AmountParser)
    returns (r: Result<MatchOutput, PreprocessError>)
    requires Rectangular(bankDf) && Rectangular(invDf)
    ensures r.Err? <==> !Distinct(CanonicalHeader(bankDf.header, BankAliases)) ||
                        !Distinct(CanonicalHeader(invDf.header, InvoiceAliases)) ||
                        !TextColumnsJoin(bankDf)
    ensures r.Ok? ==>
              var bank := PreparedBank(bankDf, parseDate, parseAmount);
              var inv := PreparedInvoices(invDf, parseDate, parseAmount);
              var ts := Targets(bank, inv);
              && MatchedPairs(bank, inv, r.value.matches)
              && r.value.unmatchedTxns == SelectRows(bank, UnmatchedTxnMask(ts))
              && r.value.unmatchedInvs == SelectRows(inv, UnclaimedMask(ts, |inv.rows|))
              && r.value.findings == PlaceholderFindings
  {
    var prepared := Preprocess(bankDf, invDf, parseDate, parseAmount);
    if prepared.Err? {
      return Err(prepared.error);
    }
    var bank, inv := prepared.value.bank, prepared.value.inv;
    var pairs, txnLeft, invLeft := ExactRefPass(bank, inv);
    LeftMasks(Targets(bank, inv), |inv.rows|, pairs, txnLeft, invLeft);
    // With nothing left, `match` builds the frame with the same labels and no rows: the same table.
    var unmatchedTxns := SelectRows(bank, MaskOf(txnLeft, |bank.rows|));
    var unmatchedInvs := SelectRows(inv, MaskOf(invLeft, |inv.rows|));
    r := Ok(MatchOutput(pairs, unmatchedTxns, unmatchedInvs, PlaceholderFindings));
  }
}
