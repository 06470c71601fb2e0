/**
 * recon/summarizer.py: the statistics bundle handed to the language model.
 * A raw bundle (what `main` assembles) is restructured into counts,
 * table samples and the raw bundle itself; a bundle that already carries
 * samples goes to the model as it is. The model call is a parameter and
 * rendering a sample as Markdown or CSV text is not modelled: a sample is
 * the rows that would be rendered.
 */
module Summarizer {
  import opened Wrappers
  import opened Tables
  import opened Matcher
  import opened Rules
  import opened Merge

  /** The raw bundle; a key the caller left out is None. */
  datatype RawStats = RawStats(
    counts: Option<map<string, int>>,
    unmatchedTxns: Option<Table>,
    unmatchedInvs: Option<Table>,
    findings: Option<map<string, Finding>>)

  datatype Counts = Counts(matches: int, unmatchedTxn: nat, unmatchedInv: nat, dupTxn: nat)

  /** `"(no samples)"`, or the leading rows that are rendered. */
  datatype Sample = NoSamples | Head(table: Table)

  datatype StructuredStats = StructuredStats(counts: Counts, txns: Sample, invs: Sample, raw: RawStats)

  /** A bundle with a `mismatch_samples` key is structured; one without it is raw. */
  datatype Bundle = Raw(stats: RawStats) | Structured(structured: StructuredStats)

  const MaxSampleRows := 3

  /**
   * `_to_markdown_safe(df)`: the empty-table text for an empty table,
   * otherwise the first rows, at most three, with every column.
   */
  function SampleOf(t: Table): (s: Sample)
    ensures s.NoSamples? <==> IsEmpty(t)
    ensures s.Head? ==> s.table.header == t.header && 0 < |s.table.rows| <= MaxSampleRows
    ensures s.Head? ==> s.table.rows <= t.rows
    ensures s.Head? && |t.rows| <= MaxSampleRows ==> s.table == t
  {
    if IsEmpty(t) then NoSamples
    else Head(Table(t.header, t.rows[..if |t.rows| < MaxSampleRows then |t.rows| else MaxSampleRows]))
  }

  /** `len` of a finding: the rows of a frame, the items of a list. */
  function FindingLength(f: Finding): nat
  {
    match f
    case TableFinding(t) => |t.rows|
    case ListFinding(items) => |items|
  }

  /** `d.get(key, default)` on an optional value. */
  function OrElse<T>(o: Option<T>, default: T): (v: T)
    ensures o.Some? ==> v == o.value
    ensures o.None? ==> v == default
  {
    if o.Some? then o.value else default
  }

  /** `generate_stats_from_inputs(raw_stats)`. */
  function GenerateStats(raw: RawStats): (s: StructuredStats)
    ensures s.raw == raw
    ensures s.counts.matches == (if raw.counts.Some? && "matches" in raw.counts.value then raw.counts.value["matches"] else 0)
    ensures s.counts.unmatchedTxn == (if raw.unmatchedTxns.Some? then |raw.unmatchedTxns.value.rows| else 0)
    ensures s.counts.unmatchedInv == (if raw.unmatchedInvs.Some? then |raw.unmatchedInvs.value.rows| else 0)
    ensures s.counts.dupTxn == (if raw.findings.Some? && "duplicate_txn" in raw.findings.value
                                then FindingLength(raw.findings.value["duplicate_txn"]) else 0)
    ensures s.txns.NoSamples? <==> (raw.unmatchedTxns.None? || IsEmpty(raw.unmatchedTxns.value))
    ensures s.invs.NoSamples? <==> (raw.unmatchedInvs.None? || IsEmpty(raw.unmatchedInvs.value))
  {
    var findings := OrElse(raw.findings, map[]);
    var unTxns := OrElse(raw.unmatchedTxns, EmptyFrame);
    var unInvs := OrElse(raw.unmatchedInvs, EmptyFrame);
    var counts := OrElse(raw.counts, map[]);
    StructuredStats(
      Counts(
        if "matches" in counts then counts["matches"] else 0,
        |unTxns.rows|,
        |unInvs.rows|,
        if "duplicate_txn" in findings then FindingLength(findings["duplicate_txn"]) else 0),
      SampleOf(unTxns),
      SampleOf(unInvs),
      raw)
  }

  /** `summarize_report(stats)`, with the model call `ask` as a parameter. */
  function SummarizeReport(stats: Bundle, ask: Bundle -> string): (summary: string)
    ensures stats.Structured? ==> summary == ask(stats)
    ensures stats.Raw? ==> summary == ask(Structured(GenerateStats(stats.stats)))
  {
    var structured := if stats.Raw? then Structured(GenerateStats(stats.stats)) else stats;
    ask(structured)
  }

  /** The bundle `main` assembles from `match`'s output and the merged findings. */
  function MainStats(out: MatchOutput, findings: map<string, Finding>): (raw: RawStats)
    ensures raw.counts == Some(map["matches" := |out.matches|])
    ensures raw.unmatchedTxns == Some(out.unmatchedTxns) && raw.unmatchedInvs == Some(out.unmatchedInvs)
    ensures raw.findings == Some(findings)
  {
    RawStats(Some(map["matches" := |out.matches|]), Some(out.unmatchedTxns), Some(out.unmatchedInvs), Some(findings))
  }

  /**
   * On the bundle `main` assembles, the counts are the number of matched
   * pairs, the unmatched rows on each side and the rows of the merged
   * `duplicate_txn` frame.
   */
  lemma MainStatsCounts(out: MatchOutput, findings: map<string, Finding>)
    requires "duplicate_txn" in findings && findings["duplicate_txn"].TableFinding?
    ensures var c := GenerateStats(MainStats(out, findings)).counts;
            c == Counts(|out.matches|, |out.unmatchedTxns.rows|, |out.unmatchedInvs.rows|,
                        |findings["duplicate_txn"].table.rows|)
  {
  }

  /**
   * Through `main`: once the rules have run on `match`'s unmatched
   * transactions and been merged, the duplicate count reported is never 1.
   */
  lemma MainDupCountNeverOne(out: MatchOutput, records: seq<map<string, Value>>, strict: map<string, Table>)
    requires Rectangular(out.unmatchedTxns)
    requires ComputeFindings(records, out.unmatchedTxns, out.unmatchedInvs) == Ok(strict)
    ensures GenerateStats(MainStats(out, Merged(PlaceholderFindings, strict))).counts.dupTxn != 1
  {
    MergedDuplicatesNeverSingle(records, out.unmatchedTxns, out.unmatchedInvs);
    MainStatsCounts(out, Merged(PlaceholderFindings, strict));
  }
}
