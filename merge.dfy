/**
 * The merge in app.py's `main`: the rule findings are folded into the
 * findings `match` returned, in place. A rule finding is taken when its
 * key is missing, or when the existing value is an empty frame and the
 * rule's frame is not; anything else already there is kept.
 */
module Merge {
  import opened Wrappers
  import opened Tables
  import opened Matcher
  import opened Rules

  /** An existing finding the rule's frame `v` displaces: an empty frame, when `v` is not empty. */
  predicate Displaced(existing: Finding, v: Table)
  {
    existing.TableFinding? && IsEmpty(existing.table) && !IsEmpty(v)
  }

  /** What key `k` holds once the rule's frame `v` for it has been merged into `findings`. */
  function MergedEntry(findings: map<string, Finding>, k: string, v: Table): Finding
  {
    if k !in findings || Displaced(findings[k], v) then TableFinding(v) else findings[k]
  }

  /** The findings once the rule findings for the keys in `done` have been merged. */
  function MergedOver(findings: map<string, Finding>, strict: map<string, Table>, done: set<string>)
    : (m: map<string, Finding>)
    requires done <= strict.Keys
    ensures m.Keys == findings.Keys + done
  {
    map k | k in findings.Keys + done :: if k in done then MergedEntry(findings, k, strict[k]) else findings[k]
  }

  /** The findings once every rule finding has been merged. */
  function Merged(findings: map<string, Finding>, strict: map<string, Table>): map<string, Finding>
  {
    MergedOver(findings, strict, strict.Keys)
  }

  /** The findings dictionary `main` updates in place. */
  class FindingsDict {
    var entries: map<string, Finding>

    constructor (findings: map<string, Finding>)
      ensures entries == findings
    {
      entries := findings;
    }

    /** `for k, v in strict_findings.items()`: each key is looked at once, in any order. */
    method MergeStrict(strict: map<string, Table>)
      modifies this
      ensures entries == Merged(old(entries), strict)
    {
      var todo := strict.Keys;
      ghost var done: set<string> := {};
      while todo != {}
        invariant todo <= strict.Keys && done == strict.Keys - todo
        invariant entries == MergedOver(old(entries), strict, done)
        decreases todo
      {
        var k :| k in todo;
        var v := strict[k];
        assert k !in done;
        assert k in entries <==> k in old(entries);
        assert k in entries ==> entries[k] == old(entries)[k];
        var existing := if k in entries then Some(entries[k]) else None;
        if k !in entries {
          entries := entries[k := TableFinding(v)];
        } else if existing.value.TableFinding? && IsEmpty(existing.value.table) && !IsEmpty(v) {
          entries := entries[k := TableFinding(v)];
        }
        todo := todo - {k};
        done := done + {k};
      }
    }

    /**
     * The `try` around the rules: when they fail, the warning is the only
     * effect and the findings stay as `match` returned them.
     */
    method MergeRuleOutcome(outcome: Result<map<string, Table>, RulesError>)
      modifies this
      ensures entries == if outcome.Ok? then Merged(old(entries), outcome.value) else old(entries)
    {
      if outcome.Ok? {
        MergeStrict(outcome.value);
      }
    }
  }

  /** Every key of either side is present afterwards, and a key only the matcher produced is untouched. */
  lemma MergedKeys(findings: map<string, Finding>, strict: map<string, Table>, k: string)
    ensures Merged(findings, strict).Keys == findings.Keys + strict.Keys
    ensures k in findings && k !in strict ==> Merged(findings, strict)[k] == findings[k]
  {
  }

  /**
   * The precedence on a rule key: the rule's frame when the key was missing
   * or held an empty frame the rule's non-empty frame displaces; otherwise
   * the existing value, be it a non-empty frame, a list such as `partials`,
   * or an empty frame against an empty rule frame.
   */
  lemma MergedPrecedence(findings: map<string, Finding>, strict: map<string, Table>, k: string)
    requires k in strict
    ensures k !in findings ==> Merged(findings, strict)[k] == TableFinding(strict[k])
    ensures k in findings && findings[k].TableFinding? && IsEmpty(findings[k].table) && !IsEmpty(strict[k])
            ==> Merged(findings, strict)[k] == TableFinding(strict[k])
    ensures k in findings && (findings[k].ListFinding? || !IsEmpty(findings[k].table) || IsEmpty(strict[k]))
            ==> Merged(findings, strict)[k] == findings[k]
  {
  }

  /**
   * Merging the same rule findings twice changes nothing more: once a key
   * holds the rule's frame or kept its own value, the merge keeps it.
   */
  lemma {:induction false} MergeIdempotent(findings: map<string, Finding>, strict: map<string, Table>)
    ensures Merged(Merged(findings, strict), strict) == Merged(findings, strict)
  {
    var once := Merged(findings, strict);
    forall k | k in strict
      ensures MergedEntry(once, k, strict[k]) == once[k]
    {
      if k in findings && !Displaced(findings[k], strict[k]) {
        assert once[k] == findings[k];
      } else {
        assert once[k] == TableFinding(strict[k]);
      }
    }
  }

  /**
   * On the findings `match` returns, the merge leaves `partials` empty,
   * gives `duplicate_txn` the rule's duplicates when there are any (the
   * empty frame otherwise), and adds `high_value_unmatched` exactly when
   * the rule produced it.
   */
  lemma {:induction false} MergedPlaceholders(strict: map<string, Table>)
    requires "duplicate_txn" in strict
    ensures var m := Merged(PlaceholderFindings, strict);
            && m["partials"] == ListFinding([])
            && m["duplicate_txn"] == TableFinding(if IsEmpty(strict["duplicate_txn"]) then EmptyFrame else strict["duplicate_txn"])
            && ("high_value_unmatched" in m <==> "high_value_unmatched" in strict)
            && ("high_value_unmatched" in strict ==> m["high_value_unmatched"] == TableFinding(strict["high_value_unmatched"]))
  {
    var m := Merged(PlaceholderFindings, strict);
    assert "high_value_unmatched" !in PlaceholderFindings;
    assert PlaceholderFindings["duplicate_txn"].TableFinding? && IsEmpty(EmptyFrame);
    if "partials" in strict {
      assert PlaceholderFindings["partials"].ListFinding?;
    }
  }

  /**
   * After the rules have run on `match`'s unmatched transactions, the
   * merged `duplicate_txn` never holds exactly one transaction.
   */
  lemma MergedDuplicatesNeverSingle(matches: seq<map<string, Value>>, bankUnmatched: Table, invUnmatched: Table)
    requires Rectangular(bankUnmatched) && ComputeFindings(matches, bankUnmatched, invUnmatched).Ok?
    ensures var m := Merged(PlaceholderFindings, ComputeFindings(matches, bankUnmatched, invUnmatched).value);
            m["duplicate_txn"].TableFinding? && |m["duplicate_txn"].table.rows| != 1
  {
    var strict := ComputeFindings(matches, bankUnmatched, invUnmatched).value;
    MergedPlaceholders(strict);
    if DuplicateRuleApplies(bankUnmatched) {
      DuplicateFindingRows(bankUnmatched, invUnmatched, matches);
      DuplicatesNeverSingle(bankUnmatched);
    }
  }
}
