# Rent reconciliation engine: a Dafny model

This project models the core of a rent reconciliation engine. The engine
pairs a landlord's bank transactions with the invoices of a rent ledger,
flags what is left over, and bundles the outcome for a summary.

The model covers these steps:

- **Reference extraction** (`extract_reference`): the upper-cased text is
  searched for `\b[A-Z]{2,}-\d{1,}\b`. Only when that pattern occurs
  nowhere is it searched for `\b[A-Z]{2,}\d{2,}\b`. The reference is the
  leftmost occurrence of the first pattern that occurs, or `''`.
- **Text normalisation** (`normalize_text`): noise words become a space,
  other punctuation becomes a space, letters are lower-cased, white-space
  runs collapse to one space, and the ends are stripped.
- **Preprocessing** (`preprocess`, `_ensure_cols`, `safe_float`):
  - Copies of both frames have their labels aliased and lower-cased.
  - The canonical columns are added as missing when absent.
  - Dates and amounts are converted.
  - `issue_date` defaults to `due_date`.
  - The helper columns are derived: `_extracted_ref`, with its
    description-then-reference fallback, `_norm_text` and `_norm_customer`.
- **The exact-reference pass of `match`**:
  - A lookup from the stripped, upper-cased invoice reference to the
    invoice position is built, and the last invoice with a key wins.
  - Bank rows are visited in ascending order.
  - A row whose extracted code hits the lookup claims that invoice when
    the invoice is still unmatched and both amounts are present and differ
    by less than five cents.
  - The unmatched rows of both frames are returned in index order, with
    the placeholder findings `{'duplicate_txn': empty, 'partials': []}`.
- **The strict rules** (`compute_findings`):
  - `duplicate_txn` holds every unmatched transaction sharing amount and
    date with another one.
  - `high_value_unmatched` holds the unmatched transactions at or above
    the 90th percentile of the amounts. Pandas' linear interpolation is
    computed exactly over whole cents.
- **The merge in `main`** (app.py): a rule finding replaces a missing key,
  or an empty frame when the rule's frame is not empty; anything else
  already there is kept.
- **The statistics bundle** (`generate_stats_from_inputs`,
  `summarize_report`, `_to_markdown_safe`): counts with their defaults, at
  most three sample rows per unmatched frame, the raw bundle under `raw`,
  and restructuring only of a raw bundle.

Data frames are `Table(header, rows)` values. A cell is missing, text, an
amount in whole cents, or a date.

The source changes state in three places, and the model does too:

- Preprocessing renames, lower-cases, adds and assigns columns on a copied
  frame. This is the `Frame` class, whose methods are proved against
  `PreparedBank` and `PreparedInvoices`.
- `match` discards indices from two sets and appends to a result list.
  This is `ClaimPass`, a loop proved against the first-claim discipline.
- The merge updates the findings dictionary in place. This is the
  `FindingsDict` class.

In these places the model follows the code as written:

- The hyphenated pattern is searched over the whole text before the bare
  one, so a bare code early in the text loses to a hyphenated code later
  in it.
- An empty extracted code still probes the lookup.
- `high_value_unmatched` is absent, not empty, when the rule does not
  apply.
- Rule 2 fails on a non-numeric amount column.
- `preprocess` fails when a bank description or reference holds a number
  or a date, because `_norm_text` joins the two columns before turning
  them into text (see Findings).

## Model

| member | source | states |
|---|---|---|
| Reference.MatchAtExact | recon/matcher.py:11 | the anchored matcher returns end `k` at `i` exactly when `u[i..k]` is a whole-word occurrence of the pattern: 2+ capitals, then a hyphen and 1+ digits, or 2+ digits |
| Reference.SearchLeftmost | recon/matcher.py:26 | `re.search` from a position finds an occurrence with no occurrence starting earlier, and finds none exactly when there is none |
| Reference.SearchFromStart | recon/matcher.py:26 | searching the whole text gives the leftmost occurrence, or none when the pattern occurs nowhere |
| Reference.ExtractReference | recon/matcher.py:22-28 | the code is `''` or starts with a capital letter; its full meaning is `ExtractReferenceSpec` |
| Reference.ExtractReferenceSpec | recon/matcher.py:22-28 | `''` exactly for empty text or text where neither pattern occurs; otherwise the leftmost hyphenated code if one occurs anywhere, else the leftmost bare code |
| Normalize.WordEndAt | recon/matcher.py:12 | there is a match exactly when some alternative is present, in any case, and followed by `\b`; the match ends where the first such alternative, in the pattern's order, ends |
| Normalize.ReplaceNoise | recon/matcher.py:32 | no contract of its own: `NormalizeExamples.ReplaceNothing` and `NormalizeExamples.ReplaceWord` state what the scan keeps and what it replaces |
| Normalize.NormalizeText | recon/matcher.py:30-34 | no contract of its own: `NormalizedShape` and `EmptyNormalizesToEmpty` state its shape, the `NormalizeExamples` lemmas its values |
| Normalize.Scrub | recon/matcher.py:33 | same length; every character becomes a lower-case letter, a digit or white space |
| Normalize.CollapseSpaces | recon/matcher.py:34 | no two white-space characters are adjacent; every character is a space or a non-space character of the input; a leading run becomes one space |
| Normalize.CollapsedScrubIsTidy | recon/matcher.py:33-34 | after the punctuation and white-space steps, only lower-case letters, digits and single spaces remain |
| Normalize.StripKeepsTidy | recon/matcher.py:34 | stripping the ends keeps the text tidy |
| Normalize.NormalizedShape | recon/matcher.py:30-34 | normalised text holds only lower-case letters, digits and single spaces, and neither starts nor ends with a space |
| Normalize.EmptyNormalizesToEmpty | recon/matcher.py:31 | empty input gives `''` |
| NormalizeExamples.OnlyPaidCanMatch | recon/matcher.py:12 | on a short text starting with `p`, only the alternative `paid` can match |
| NormalizeExamples.ReplaceNothing | recon/matcher.py:32 | where no noise word starts, the substitution leaves the text unchanged |
| NormalizeExamples.ReplaceWord | recon/matcher.py:32 | a noise word found at the scan position becomes one space and the scan resumes after it |
| NormalizeExamples.NoMatchAtStart | recon/matcher.py:12 | an alternative longer than the text, or not starting with its first letter, cannot match at the start |
| NormalizeExamples.SeventhAlternative | recon/matcher.py:12 | when none of the first six alternatives matches, the match is the seventh's, or none |
| NormalizeExamples.CollapseNothing | recon/matcher.py:34 | single-spaced text is left unchanged by the collapse |
| NormalizeExamples.NormalizePaidUnderscore | recon/matcher.py:30-34 | `paid_` survives the noise pattern, since `_` is a word character, and normalises to `paid` |
| NormalizeExamples.NormalizePaid | recon/matcher.py:30-34 | `paid` normalises to `''` |
| NormalizeExamples.NormalizeNotIdempotent | recon/matcher.py:30-34 | normalising twice differs from normalising once: `paid_` gives `paid`, then `''` |
| Frames.Renamed | recon/matcher.py:47-61 | each label with an alias takes it, every other label stays, and the count is unchanged |
| Frames.Lowered | recon/matcher.py:64-65 | each label is lower-cased, in place |
| Frames.EnsuredCols | recon/matcher.py:36-40 | well formed with the same rows; `EnsuredColsCells` and `EnsuredLabelsSchema` state its cells and labels |
| Frames.EnsuredColsCells | recon/matcher.py:36-40 | adding missing columns leaves every existing cell as it was and makes the new columns read missing |
| Frames.EnsuredLabelsSchema | recon/matcher.py:36-40 | the old labels are a prefix, the label set gains exactly the canonical columns, and distinct labels stay distinct |
| Frames.Frame.Copy | recon/matcher.py:43 | the copy has the input's labels and rows |
| Frames.Frame.Rename | recon/matcher.py:47-53 | the labels become the aliased labels and the rows are unchanged |
| Frames.Frame.LowerColumns | recon/matcher.py:64 | the labels become lower-cased and the rows are unchanged |
| Frames.Frame.EnsureCols | recon/matcher.py:68 | the frame becomes the frame with the missing canonical columns appended |
| Frames.Frame.Assign | recon/matcher.py:72 | the frame becomes the frame with that column overwritten, or appended when absent |
| Preparation.ToDate | recon/matcher.py:18-20 | the result is a date or missing; a date stays itself, a missing cell stays missing, and text becomes a date exactly when it parses |
| Preparation.ToNumeric | recon/matcher.py:76-77 | the result is an amount or missing; an amount stays itself, and a missing cell or a date becomes missing |
| Preparation.SafeFloat | recon/matcher.py:14-16 | no contract of its own: `SafeFloatIsCoercion` relates it to the coercion |
| Preparation.PreparedBank | recon/matcher.py:42-90 | well formed with one row per input row; the `PreparedBank` lemmas of `PreparationSpec` state its labels and cells |
| Preparation.PreparedInvoices | recon/matcher.py:42-90 | well formed with one row per input row; the `PreparedInvoices` lemmas of `PreparationSpec` state its labels and cells |
| Preparation.DateColumn | recon/matcher.py:72-73 | each cell is parsed to a date; missing or unparsable cells become missing |
| Preparation.NumericColumn | recon/matcher.py:76-77 | each cell is coerced to an amount; missing or unparsable cells become missing |
| Preparation.DescriptionCodes | recon/matcher.py:80 | each row's first code is the reference extracted from its description text, with missing read as `''` |
| Preparation.PrepareBank | recon/matcher.py:43-87 | the in-place steps turn the bank frame into `PreparedBank` of the original |
| Preparation.PrepareInvoices | recon/matcher.py:43-88 | the in-place steps turn the invoice frame into `PreparedInvoices` of the original |
| PreparationSpec.BankCode | recon/matcher.py:80-85 | the code is `''` exactly when neither column yields one, and otherwise is the description's or the reference's code |
| PreparationSpec.PreparedBankCode | recon/matcher.py:80-85 | `_extracted_ref` is the description's code when non-empty, else the reference column's code |
| PreparationSpec.PreparedBankTyped | recon/matcher.py:72-76 | the bank `date` and `amount` are the parsed canonical input cells |
| PreparationSpec.PreparedBankNormText | recon/matcher.py:87 | `_norm_text` is the normalised description, a space, and the reference |
| PreparationSpec.PreparedBankOther | recon/matcher.py:43-87 | every other column holds the canonical input's cells unchanged |
| PreparationSpec.PreparedBankSchema | recon/matcher.py:47-87 | with distinct canonical labels, the prepared bank frame is well formed, keeps the input labels as a prefix, and has exactly them plus the five canonical columns plus `_extracted_ref` and `_norm_text` |
| PreparationSpec.PreparedInvoicesSchema | recon/matcher.py:55-88 | with distinct canonical labels, the prepared invoice frame is well formed, keeps the input labels as a prefix, and has exactly them plus the five canonical columns plus `issue_date` and `_norm_customer` |
| PreparationSpec.PreparedInvoicesTyped | recon/matcher.py:73-77 | `due_date` is parsed; `issue_date` is kept when the input has it and is the parsed `due_date` otherwise; `amount` is coerced |
| PreparationSpec.PreparedInvoicesCustomer | recon/matcher.py:88 | `_norm_customer` is the normalised customer text |
| PreparationSpec.PreparedInvoicesOther | recon/matcher.py:43-88 | every other invoice column holds the canonical input's cells unchanged |
| PreparationSpec.InvoiceBaseHasIssueDate | recon/matcher.py:74 | the frame has `issue_date` before the default exactly when the input has it |
| PreparationSpec.SafeFloatIsCoercion | recon/matcher.py:14-16 | `safe_float` of a cell is the amount of its coerced value exactly when the cell is not text, or `float()` and `to_numeric` read its text alike |
| PreparationSpec.SafeFloatIsCoercedAmount | recon/matcher.py:76 | where `float()` reads the input amount's text as the coercion does, the prepared bank amount read back is `safe_float` of the input amount |
| PreparationSpec.NumericReferenceRefused | recon/matcher.py:87 | a bank frame whose one reference is a number cannot be joined into `_norm_text` |
| Preprocessing.Preprocess | recon/matcher.py:42-90 | fails exactly when a frame's canonical labels repeat or a bank description or reference holds a number or a date; otherwise returns `PreparedBank` and `PreparedInvoices` of the inputs, both well formed |
| Matcher.RefKey | recon/matcher.py:103 | a missing reference has no key; any other reference has one |
| Matcher.RefLookup | recon/matcher.py:103 | every key maps to a position carrying it, and every position with a key maps to itself or a later one: the last wins |
| Matcher.InvByRef | recon/matcher.py:103 | every value is an invoice position; `RefLookup` states that the last invoice with a key wins |
| Matcher.Tolerated | recon/matcher.py:113 | no contract of its own: `TargetsMeaning` and `MatchedPairConditions` state where it decides a claim |
| Matcher.ReferenceKeys | recon/matcher.py:103 | one key per invoice: its stripped, upper-cased reference, or none when the reference is missing |
| Matcher.TargetsMeaning | recon/matcher.py:105-113 | a bank row claims invoice `i` exactly when its code maps to `i` in the lookup and both amounts are present and within the tolerance |
| Matcher.RecordFields | recon/matcher.py:114 | the record has both frames' columns and `match_type = exact_ref`, and takes the invoice's value on shared columns |
| Matcher.ClaimPass | recon/matcher.py:105-116 | the loop pairs exactly the first claims in row order, leaves the other rows unmatched, and leaves exactly the unclaimed invoices unmatched |
| Matcher.VisitRow | recon/matcher.py:106-116 | one iteration keeps the first-claim discipline for one more row |
| Matcher.ExactRefPass | recon/matcher.py:102-116 | the pass over the prepared frames yields the matched pairs with their records and the unmatched sets |
| Matcher.PairsOneToOne | recon/matcher.py:95-116 | no transaction or invoice is in two pairs, and each is unmatched exactly when no pair holds it |
| Matcher.MatchPartition | recon/matcher.py:95-122 | on `match`'s pairs, a row of either frame is in the unmatched output exactly when no pair holds it, and no row is paired twice |
| Matcher.MatchedPairConditions | recon/matcher.py:103-116 | in every matched pair, the code is the invoice's stripped, upper-cased reference, the invoice is the last with that key, the amounts are within the tolerance, no earlier bank row claims the invoice, and the record merges the two rows |
| Matcher.CodeShape | recon/matcher.py:80-85 | a prepared bank code is `''` or starts with a capital letter |
| Matcher.NonTextKeyShape | recon/matcher.py:103 | the lookup key of a number or a date is non-empty and does not start with a capital letter |
| Matcher.NonTextReferenceNeverClaimed | recon/matcher.py:103-107 | no bank row claims an invoice whose reference is a number or a date |
| Matcher.EmptyCodeClaimsBlankReference | recon/matcher.py:103-107 | a bank row without a code claims the last invoice whose reference is blank text, given agreeing amounts |
| Matcher.LeftMasks | recon/matcher.py:121-122 | the unmatched index sets select exactly the rows that are not first claims and the invoices nobody claims |
| Matcher.Match | recon/matcher.py:92-126 | fails exactly as preprocessing does; otherwise returns the first-claim pairs with their records, the unmatched rows of each frame in index order, and the placeholder findings |
| Tables.TextOf | recon/matcher.py:103 | a missing cell reads as `''`, text as itself, and a number or a date as non-empty text starting with a digit or a sign |
| Tables.SelectRows | recon/matcher.py:121 | the selected frame keeps the labels and holds the masked rows in increasing position order |
| Tables.MaskIndices | recon/rules.py:12 | the selected positions are exactly the masked ones, strictly increasing |
| Quantiles.Quantile90 | recon/rules.py:18 | no contract of its own: `QuantileBetween`, `QuantileBounds` and `QuantileAtMostMax` state where it lies |
| Quantiles.Sort | recon/rules.py:18 | the values in ascending order, a permutation of the input |
| Quantiles.QuantileBetween | recon/rules.py:18 | the 90th percentile lies between the sorted value at the whole part of 0.9·(n−1) and the next one, or that value alone when it is the last |
| Quantiles.QuantileBounds | recon/rules.py:18 | the 90th percentile lies between the smallest and the largest value |
| Quantiles.QuantileAtMostMax | recon/rules.py:18 | the 90th percentile is at most the maximum |
| Rules.DuplicateMask | recon/rules.py:11 | one flag per row; `DuplicateMaskMeaning` states which rows are flagged |
| Rules.Threshold | recon/rules.py:18 | no contract of its own: `HighValueNonEmpty` and `HighValueUpwardClosed` state what it flags |
| Rules.HighValueMask | recon/rules.py:18-19 | one flag per row; `HighValueMaxFlagged` and `HighValueUpwardClosed` state which rows are flagged |
| Rules.DuplicateMaskMeaning | recon/rules.py:11 | a row is flagged exactly when another row has the same amount and date |
| Rules.DuplicatesNeverSingle | recon/rules.py:10-12 | the duplicate selection never holds exactly one row |
| Rules.PresentAmounts | recon/rules.py:18 | one value per numeric cell of the column, in row order: the j-th value is the amount of the j-th numeric cell, so multiplicity and order are those of the column |
| Rules.ComputeFindings | recon/rules.py:6-21 | fails exactly when rule 2 applies to a non-numeric amount column; `duplicate_txn` is always present and has no columns when rule 1 does not apply; `high_value_unmatched` is present exactly when rule 2 applies |
| Rules.FindingsIgnoreMatchesAndInvoices | recon/rules.py:6-21 | the result depends on the unmatched bank transactions alone |
| Rules.DuplicateFindingRows | recon/rules.py:10-12 | when rule 1 applies and the amounts are numeric, so the rules succeed, `duplicate_txn` is exactly the flagged rows, in order |
| Rules.HighValueFindingRows | recon/rules.py:17-19 | when rule 2 applies and the amounts are numeric, so the rules succeed, `high_value_unmatched` is exactly the flagged rows, in order |
| Rules.HighValueNonEmpty | recon/rules.py:17-19 | some transaction is flagged whenever an amount is present |
| Rules.HighValueMaxFlagged | recon/rules.py:18-19 | a transaction with the largest amount is always flagged |
| Rules.HighValueUpwardClosed | recon/rules.py:18-19 | a missing amount is never flagged, and an amount at least a flagged one's is flagged |
| Merge.FindingsDict.constructor | app.py:22 | the dictionary holds the findings `match` returned |
| Merge.FindingsDict.MergeStrict | app.py:31-37 | after the loop, the dictionary is the merge of its old contents with the rule findings |
| Merge.FindingsDict.MergeRuleOutcome | app.py:25-40 | when the rules fail, the findings stay as they were; otherwise they are merged |
| Merge.Merged | app.py:31-37 | no contract of its own: `MergedKeys`, `MergedPrecedence` and `MergeIdempotent` state the merge |
| Merge.MergedKeys | app.py:31-35 | every key of either side is present afterwards, and a key only `match` produced is untouched |
| Merge.MergedPrecedence | app.py:32-37 | a missing key, or an empty frame against a non-empty rule frame, takes the rule's frame; a non-empty frame, a list, or an empty frame against an empty rule frame is kept |
| Merge.MergeIdempotent | app.py:31-37 | merging the same rule findings again changes nothing |
| Merge.MergedPlaceholders | app.py:31-37 | on `match`'s placeholders, `partials` stays `[]`, `duplicate_txn` becomes the rule's frame when it is not empty, and `high_value_unmatched` is present exactly when the rules produced it |
| Merge.MergedDuplicatesNeverSingle | app.py:27-37 | the merged `duplicate_txn` never holds exactly one transaction |
| Summarizer.SampleOf | recon/summarizer.py:8-11 | `(no samples)` exactly for an empty frame; otherwise the leading rows, between one and three, with all columns |
| Summarizer.GenerateStats | recon/summarizer.py:15-32 | the raw bundle is kept under `raw`; each count is the given value or length, or 0 when the key is absent; samples are empty exactly when the frame is absent or empty |
| Summarizer.SummarizeReport | recon/summarizer.py:35-42 | a structured bundle goes to the model as it is; a raw one is restructured first |
| Summarizer.MainStats | app.py:43-48 | the bundle `main` builds: the match count, both unmatched frames and the merged findings |
| Summarizer.MainStatsCounts | recon/summarizer.py:21-26 | on that bundle, the counts are the pairs, the unmatched rows of each frame, and the merged duplicate rows |
| Summarizer.MainDupCountNeverOne | recon/summarizer.py:25 | through `main`, the reported duplicate count is never 1 |

## Left out

- Character classes are ASCII: upper and lower case, `\w` and `\b` cover
  only ASCII letters, digits and `_`. Unicode case mapping is not modelled.
  `\s` and `str.strip()` use Python's white-space set.
- Amounts are whole cents, not floats. The 0.05 tolerance becomes a
  difference of less than five cents.
- Matcher.Tolerated: a difference of exactly five cents is rejected. In
  floats, `abs(100.05 - 100.00)` is 0.04999…, so the source pairs those
  two amounts, and other pairs five cents apart fall on either side by
  rounding.
- Rules.Threshold: the 90th percentile is exact over whole cents. Float
  rounding of pandas' interpolation is not modelled.
- Date parsing (`dateutil`) and number coercion (`pd.to_numeric`) are
  parameters: any partial parser, with None where the library gives None
  or NaN.
- PreparationSpec.SafeFloatIsCoercion: `float()` is a parameter of its
  own. `float('1_000')` and `float` of non-ASCII digits give a number
  where `to_numeric` gives NaN, so the two agree only where both parsers
  read the cell's text alike, which the lemma states as its condition.
- Normalize.ReplaceNoise: the model proves that a noise word found at the
  scan position is replaced, and that text without one is kept. It does
  not prove that the output holds no noise word between word boundaries.
- Preprocessing.Preprocess: a frame whose labels repeat after aliasing and
  lower-casing, such as `Amount` next to `AmountPaid`, is refused with an
  error. Pandas' behaviour on repeated labels is not modelled.
- Tables.TextOf: a number renders as its whole units, then a point and
  the cents without trailing zeros when the cents are not zero (`123.5`,
  `123.05`). A date renders as `YYYY-MM-DD`. A whole float such as
  `12345.0` renders as `12345`, where pandas writes `12345.0`. The model
  relies only on the text being non-empty and starting with a digit or a
  sign.
- Pandas index labels are not modelled. Row positions stand for the
  `RangeIndex` labels of frames read from CSV.
- Matcher.ClaimPass: bank rows are visited in ascending order. This is the
  order CPython gives for a set of small integers; the language does not
  guarantee it.
- The input frames are values. `preprocess` works on copies and the rules
  work on `.copy()`, so no input is mutated.
- The fuzzy pass is only a comment in the source, and it is not modelled.
- recon/llm_gemini.py, recon/integrators.py and streamlit_app.py are not
  part of this model. Neither are app.py's CSV loading, printing and
  publishing.
- Summarizer.SummarizeReport: the model call is a parameter.
- Summarizer.SampleOf: Markdown and CSV rendering are not modelled. A
  sample is the rows that would be rendered.
- Merge.FindingsDict.MergeRuleOutcome: any exception the rules raise is
  modelled by the one error a non-numeric amount column causes. The
  warning text is not modelled.

## Findings

| source | as written | input that shows it | evidently intended | confidence | as-written member | corrected member |
|---|---|---|---|---|---|---|
| recon/matcher.py:87 | `_norm_text` joins the description and reference columns with `+` before turning them into text, so a number or a date in either raises and `preprocess` fails | a bank frame whose `reference` column holds `12345`, read from CSV as a number | each column turned into text before the join, as lines 80 and 84 do for `_extracted_ref` | medium, not executed | PreparationSpec.NumericReferenceRefused | PreparationSpec.PreparedBankNormText |

`Preprocess` and `Match` keep the failure, since that is what the code
does. `PreparedBank` computes the corrected `_norm_text` for every frame,
numbers and dates rendered as text, and every lemma about the prepared
bank frame holds for any input.
