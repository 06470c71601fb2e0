/**
 * `preprocess` and `safe_float` in recon/matcher.py: both input frames
 * are copied, their labels aliased and lower-cased, the canonical columns
 * added when missing, dates and amounts converted, and the helper columns
 * used for matching derived. Date and number parsing are parameters: any
 * partial parser, returning None where the library gives None or NaN.
 */
module Preparation {
  import opened Wrappers
  import opened Chars
  import opened Tables
  import opened Frames
  import opened Reference
  import opened Normalize

  /** `dateutil.parser.parse(...).date()`, None where it raises. */
  type DateParser = string -> Option<Date>

  /** Number parsing to cents, None where the text is not a number. */
  type AmountParser = string -> Option<int>

  const BankAliases: map<string, string> :=
    map["TransactionID" := "txn_id", "DatePaid" := "date", "AmountPaid" := "amount",
        "Description" := "description", "Reference" := "reference"]

  const InvoiceAliases: map<string, string> :=
    map["InvoiceID" := "invoice_id", "TenantName" := "customer", "MonthlyRent" := "amount",
        "DueDate" := "due_date", "PaymentReference" := "reference"]

  const BankColumns: seq<string> := ["txn_id", "date", "amount", "description", "reference"]

  const InvoiceColumns: seq<string> := ["invoice_id", "customer", "amount", "due_date", "reference"]

  /**
   * Why `preprocess` fails: a label repeats once aliased and lower-cased,
   * or `_norm_text` joins a number or a date to text, which raises.
   */
  datatype PreprocessError = RepeatedLabel | NonTextJoin

  /** Both frames after preprocessing. */
  datatype Prepared = Prepared(bank: Table, inv: Table)

  /** The header step: aliases first, then lower case. */
  function CanonicalHeader(h: seq<string>, aliases: map<string, string>): seq<string>
  {
    Lowered(Renamed(h, aliases))
  }

  /** The raw frame as seen through its canonical labels. */
  function Canonical(t: Table, aliases: map<string, string>): (c: Table)
    requires Rectangular(t)
    ensures Rectangular(c) && c.rows == t.rows
  {
    Table(CanonicalHeader(t.header, aliases), t.rows)
  }

  /**
   * `_to_date` of one cell: the date parsed from the cell's text, so a
   * number is parsed from its digits; missing stays missing, a date stays
   * itself and unparsable text becomes missing.
   */
  function ToDate(parse: DateParser, v: Value): (r: Value)
    ensures r.Day? || r.Null?
    ensures v.Day? ==> r == v
    ensures v.Null? ==> r.Null?
    ensures v.Str? ==> (r.Day? <==> parse(v.text).Some?)
  {
    match v
    case Null => Null
    case Day(_) => v
    case _ => (match parse(TextOf(v)) case Some(d) => Day(d) case None => Null)
  }

  /** `pd.to_numeric(..., errors='coerce')` of one cell. */
  function ToNumeric(parse: AmountParser, v: Value): (r: Value)
    ensures r.Num? || r.Null?
    ensures v.Num? ==> r == v
    ensures v.Null? || v.Day? ==> r.Null?
  {
    match v
    case Str(s) => (match parse(s) case Some(c) => Num(c) case None => Null)
    case Num(_) => v
    case _ => Null
  }

  /**
   * `safe_float`: None for a missing cell or one that does not parse.
   * `float()` reads text by its own rules, so it gets its own parser.
   */
  function SafeFloat(parseFloat: AmountParser, v: Value): Option<int>
  {
    if v.Null? then None
    else if v.Num? then Some(v.cents)
    else if v.Str? then parseFloat(v.text)
    else None
  }

  function DateColumn(parse: DateParser, col: seq<Value>): (r: seq<Value>)
    ensures |r| == |col| && forall i :: 0 <= i < |col| ==> r[i] == ToDate(parse, col[i])
  {
    seq(|col|, i requires 0 <= i < |col| => ToDate(parse, col[i]))
  }

  function NumericColumn(parse: AmountParser, col: seq<Value>): (r: seq<Value>)
    ensures |r| == |col| && forall i :: 0 <= i < |col| ==> r[i] == ToNumeric(parse, col[i])
  {
    seq(|col|, i requires 0 <= i < |col| => ToNumeric(parse, col[i]))
  }

  /** `_extracted_ref` as first derived: the description's code. */
  function DescriptionCodes(t: Table): (r: seq<Value>)
    requires Rectangular(t)
    ensures |r| == |t.rows|
    ensures forall i :: 0 <= i < |t.rows| ==> r[i] == Str(ExtractReference(TextOf(Cell(t, i, "description"))))
  {
    seq(|t.rows|, i requires 0 <= i < |t.rows| => Str(ExtractReference(TextOf(Cell(t, i, "description")))))
  }

  /** `replace('', NA).fillna(...)`: an empty code falls back to the reference column's code. */
  function CodesWithFallback(t: Table): (r: seq<Value>)
    requires Rectangular(t)
    ensures |r| == |t.rows|
  {
    seq(|t.rows|, i requires 0 <= i < |t.rows| =>
      var first := TextOf(Cell(t, i, "_extracted_ref"));
      Str(if first != "" then first else ExtractReference(TextOf(Cell(t, i, "reference")))))
  }

  /** A cell `+` joins to text once `fillna('')` has run: text or missing. */
  predicate TextOrMissing(v: Value)
  {
    v.Str? || v.Null?
  }

  /**
   * `description.fillna('') + ' ' + reference.fillna('')` succeeds: no
   * number or date in either column of the bank frame, which those steps
   * leave as the input had them.
   */
  predicate TextColumnsJoin(raw: Table)
    requires Rectangular(raw)
  {
    var src := Canonical(raw, BankAliases);
    forall r :: 0 <= r < |raw.rows| ==>
      TextOrMissing(Cell(src, r, "description")) && TextOrMissing(Cell(src, r, "reference"))
  }

  function NormTexts(t: Table): (r: seq<Value>)
    requires Rectangular(t)
    ensures |r| == |t.rows|
  {
    seq(|t.rows|, i requires 0 <= i < |t.rows| =>
      Str(NormalizeText(TextOf(Cell(t, i, "description")) + " " + TextOf(Cell(t, i, "reference")))))
  }

  function NormCustomers(t: Table): (r: seq<Value>)
    requires Rectangular(t)
    ensures |r| == |t.rows|
  {
    seq(|t.rows|, i requires 0 <= i < |t.rows| => Str(NormalizeText(TextOf(Cell(t, i, "customer")))))
  }

  /** The bank frame with canonical labels and every canonical column. */
  function BankBase(raw: Table): (t: Table)
    requires Rectangular(raw)
    ensures Rectangular(t) && |t.rows| == |raw.rows|
  {
    EnsuredCols(Canonical(raw, BankAliases), BankColumns)
  }

  /** ... then with dates and amounts converted. */
  function BankTyped(raw: Table, parseDate: DateParser, parseAmount: AmountParser): (t: Table)
    requires Rectangular(raw)
    ensures Rectangular(t) && |t.rows| == |raw.rows|
  {
    var t0 := BankBase(raw);
    var t1 := WithColumn(t0, "date", DateColumn(parseDate, Column(t0, "date")));
    WithColumn(t1, "amount", NumericColumn(parseAmount, Column(t1, "amount")))
  }

  /** ... then with the description's codes as `_extracted_ref`. */
  function BankCoded(raw: Table, parseDate: DateParser, parseAmount: AmountParser): (t: Table)
    requires Rectangular(raw)
    ensures Rectangular(t) && |t.rows| == |raw.rows|
  {
    var t2 := BankTyped(raw, parseDate, parseAmount);
    WithColumn(t2, "_extracted_ref", DescriptionCodes(t2))
  }

  /** ... then with the fallback to the reference column's code. */
  function BankWithFallback(raw: Table, parseDate: DateParser, parseAmount: AmountParser): (t: Table)
    requires Rectangular(raw)
    ensures Rectangular(t) && |t.rows| == |raw.rows|
  {
    var t3 := BankCoded(raw, parseDate, parseAmount);
    WithColumn(t3, "_extracted_ref", CodesWithFallback(t3))
  }

  /** The bank frame after preprocessing: the last stage adds `_norm_text`. */
  function PreparedBank(raw: Table, parseDate: DateParser, parseAmount: AmountParser): (b: Table)
    requires Rectangular(raw)
    ensures Rectangular(b) && |b.rows| == |raw.rows|
  {
    var t4 := BankWithFallback(raw, parseDate, parseAmount);
    WithColumn(t4, "_norm_text", NormTexts(t4))
  }

  /** The invoice frame with canonical labels, every canonical column and parsed due dates. */
  function InvoiceBase(raw: Table, parseDate: DateParser): (t: Table)
    requires Rectangular(raw)
    ensures Rectangular(t) && |t.rows| == |raw.rows|
  {
    var t0 := EnsuredCols(Canonical(raw, InvoiceAliases), InvoiceColumns);
    WithColumn(t0, "due_date", DateColumn(parseDate, Column(t0, "due_date")))
  }

  /** ... then with `issue_date` defaulted to the due date when the column is absent. */
  function InvoiceDated(raw: Table, parseDate: DateParser): (t: Table)
    requires Rectangular(raw)
    ensures Rectangular(t) && |t.rows| == |raw.rows|
  {
    var t1 := InvoiceBase(raw, parseDate);
    if "issue_date" in t1.header then t1 else WithColumn(t1, "issue_date", Column(t1, "due_date"))
  }

  /** ... then with amounts converted. */
  function InvoiceTyped(raw: Table, parseDate: DateParser, parseAmount: AmountParser): (t: Table)
    requires Rectangular(raw)
    ensures Rectangular(t) && |t.rows| == |raw.rows|
  {
    var t2 := InvoiceDated(raw, parseDate);
    WithColumn(t2, "amount", NumericColumn(parseAmount, Column(t2, "amount")))
  }

  /** The invoice frame after preprocessing: the last stage adds `_norm_customer`. */
  function PreparedInvoices(raw: Table, parseDate: DateParser, parseAmount: AmountParser): (v: Table)
    requires Rectangular(raw)
    ensures Rectangular(v) && |v.rows| == |raw.rows|
  {
    var t3 := InvoiceTyped(raw, parseDate, parseAmount);
    WithColumn(t3, "_norm_customer", NormCustomers(t3))
  }

  /** Preprocessing of the bank frame, in place on its copy. */
  method PrepareBank(f: Frame, parseDate: DateParser, parseAmount: AmountParser)
    requires Rectangular(f.View())
    modifies f
    ensures f.View() == PreparedBank(old(f.View()), parseDate, parseAmount)
  {
    f.Rename(BankAliases);
    f.LowerColumns();
    f.EnsureCols(BankColumns);
    f.Assign("date", DateColumn(parseDate, Column(f.View(), "date")));
    f.Assign("amount", NumericColumn(parseAmount, Column(f.View(), "amount")));
    f.Assign("_extracted_ref", DescriptionCodes(f.View()));
    f.Assign("_extracted_ref", CodesWithFallback(f.View()));
    f.Assign("_norm_text", NormTexts(f.View()));
  }

  /** Preprocessing of the invoice frame, in place on its copy. */
  method PrepareInvoices(f: Frame, parseDate: DateParser, parseAmount: AmountParser)
    requires Rectangular(f.View())
    modifies f
    ensures f.View() == PreparedInvoices(old(f.View()), parseDate, parseAmount)
  {
    f.Rename(InvoiceAliases);
    f.LowerColumns();
    f.EnsureCols(InvoiceColumns);
    f.Assign("due_date", DateColumn(parseDate, Column(f.View(), "due_date")));
    if "issue_date" !in f.header {
      f.Assign("issue_date", Column(f.View(), "due_date"));
    }
    f.Assign("amount", NumericColumn(parseAmount, Column(f.View(), "amount")));
    f.Assign("_norm_customer", NormCustomers(f.View()));
  }
}

/** What preprocessing guarantees about the two frames. */
module PreparationSpec {
  import opened Wrappers
  import opened Chars
  import opened Tables
  import opened Frames
  import opened Reference
  import opened Normalize
  import opened Preparation

  /** The bank reference code: the description's code, else the reference column's, else "". */
  function BankCode(desc: Value, ref: Value): (code: string)
    ensures code == "" <==> ExtractReference(TextOf(desc)) == "" && ExtractReference(TextOf(ref)) == ""
    ensures code != "" ==> code == ExtractReference(TextOf(desc)) || code == ExtractReference(TextOf(ref))
  {
    var d := ExtractReference(TextOf(desc));
    if d != "" then d else ExtractReference(TextOf(ref))
  }

  lemma BankTypedCell(raw: Table, parseDate: DateParser, parseAmount: AmountParser, i: nat, x: string)
    requires Rectangular(raw) && i < |raw.rows|
    ensures var src := Canonical(raw, BankAliases);
            Cell(BankTyped(raw, parseDate, parseAmount), i, x) ==
              if x == "date" then ToDate(parseDate, Cell(src, i, x))
              else if x == "amount" then ToNumeric(parseAmount, Cell(src, i, x))
              else Cell(src, i, x)
  {
    var src := Canonical(raw, BankAliases);
    var t0 := BankBase(raw);
    var t1 := WithColumn(t0, "date", DateColumn(parseDate, Column(t0, "date")));
    EnsuredColsCells(src, BankColumns, i, x);
    EnsuredColsCells(src, BankColumns, i, "date");
    CellWithColumn(t0, "date", DateColumn(parseDate, Column(t0, "date")), i, x);
    CellWithColumn(t0, "date", DateColumn(parseDate, Column(t0, "date")), i, "amount");
    CellWithColumn(t1, "amount", NumericColumn(parseAmount, Column(t1, "amount")), i, x);
    if x == "amount" {
      EnsuredColsCells(src, BankColumns, i, "amount");
    }
  }

  lemma BankCodeCell(raw: Table, parseDate: DateParser, parseAmount: AmountParser, i: nat, x: string)
    requires Rectangular(raw) && i < |raw.rows|
    ensures var t2 := BankTyped(raw, parseDate, parseAmount);
            Cell(BankWithFallback(raw, parseDate, parseAmount), i, x) ==
              if x == "_extracted_ref" then Str(BankCode(Cell(t2, i, "description"), Cell(t2, i, "reference")))
              else Cell(t2, i, x)
  {
    var t2 := BankTyped(raw, parseDate, parseAmount);
    var t3 := BankCoded(raw, parseDate, parseAmount);
    CellWithColumn(t2, "_extracted_ref", DescriptionCodes(t2), i, x);
    CellWithColumn(t2, "_extracted_ref", DescriptionCodes(t2), i, "_extracted_ref");
    CellWithColumn(t2, "_extracted_ref", DescriptionCodes(t2), i, "reference");
    CellWithColumn(t3, "_extracted_ref", CodesWithFallback(t3), i, x);
  }

  /** The last stage adds `_norm_text` and leaves every other cell as it was. */
  lemma NormTextStage(raw: Table, parseDate: DateParser, parseAmount: AmountParser, i: nat, x: string)
    requires Rectangular(raw) && i < |raw.rows|
    ensures var t2 := BankTyped(raw, parseDate, parseAmount);
            Cell(PreparedBank(raw, parseDate, parseAmount), i, x) ==
              if x == "_norm_text" then
                Str(NormalizeText(TextOf(Cell(t2, i, "description")) + " " + TextOf(Cell(t2, i, "reference"))))
              else if x == "_extracted_ref" then
                Str(BankCode(Cell(t2, i, "description"), Cell(t2, i, "reference")))
              else Cell(t2, i, x)
  {
    var t4 := BankWithFallback(raw, parseDate, parseAmount);
    CellWithColumn(t4, "_norm_text", NormTexts(t4), i, x);
    BankCodeCell(raw, parseDate, parseAmount, i, x);
    BankCodeCell(raw, parseDate, parseAmount, i, "description");
    BankCodeCell(raw, parseDate, parseAmount, i, "reference");
  }

  /** Prepared dates and amounts are the parsed cells of the input's date and amount columns. */
  lemma PreparedBankTyped(raw: Table, parseDate: DateParser, parseAmount: AmountParser, i: nat)
    requires Rectangular(raw) && i < |raw.rows|
    ensures var src := Canonical(raw, BankAliases);
            var b := PreparedBank(raw, parseDate, parseAmount);
            && Cell(b, i, "date") == ToDate(parseDate, Cell(src, i, "date"))
            && Cell(b, i, "amount") == ToNumeric(parseAmount, Cell(src, i, "amount"))
  {
    NormTextStage(raw, parseDate, parseAmount, i, "date");
    NormTextStage(raw, parseDate, parseAmount, i, "amount");
    BankTypedCell(raw, parseDate, parseAmount, i, "date");
    BankTypedCell(raw, parseDate, parseAmount, i, "amount");
  }

  /**
   * `_extracted_ref` is the description's code when it has one, else the
   * reference column's code, else "".
   */
  lemma PreparedBankCode(raw: Table, parseDate: DateParser, parseAmount: AmountParser, i: nat)
    requires Rectangular(raw) && i < |raw.rows|
    ensures var src := Canonical(raw, BankAliases);
            var d := ExtractReference(TextOf(Cell(src, i, "description")));
            Cell(PreparedBank(raw, parseDate, parseAmount), i, "_extracted_ref") ==
              Str(if d != "" then d else ExtractReference(TextOf(Cell(src, i, "reference"))))
  {
    NormTextStage(raw, parseDate, parseAmount, i, "_extracted_ref");
    BankTypedCell(raw, parseDate, parseAmount, i, "description");
    BankTypedCell(raw, parseDate, parseAmount, i, "reference");
  }

  /** `_norm_text` is the normalised description and reference, joined by a space. */
  lemma PreparedBankNormText(raw: Table, parseDate: DateParser, parseAmount: AmountParser, i: nat)
    requires Rectangular(raw) && i < |raw.rows|
    ensures var src := Canonical(raw, BankAliases);
            Cell(PreparedBank(raw, parseDate, parseAmount), i, "_norm_text") ==
              Str(NormalizeText(TextOf(Cell(src, i, "description")) + " " + TextOf(Cell(src, i, "reference"))))
  {
    NormTextStage(raw, parseDate, parseAmount, i, "_norm_text");
    BankTypedCell(raw, parseDate, parseAmount, i, "description");
    BankTypedCell(raw, parseDate, parseAmount, i, "reference");
  }

  /** Every other column keeps the input's cells; a column the input lacks reads as Null. */
  lemma PreparedBankOther(raw: Table, parseDate: DateParser, parseAmount: AmountParser, i: nat, c: string)
    requires Rectangular(raw) && i < |raw.rows|
    requires c !in {"date", "amount", "_extracted_ref", "_norm_text"}
    ensures Cell(PreparedBank(raw, parseDate, parseAmount), i, c) == Cell(Canonical(raw, BankAliases), i, c)
  {
    NormTextStage(raw, parseDate, parseAmount, i, c);
    BankTypedCell(raw, parseDate, parseAmount, i, c);
  }

  /**
   * The prepared bank frame has unique labels: the input's canonical
   * labels, then the canonical bank columns and the two helper columns,
   * and nothing else.
   */
  lemma PreparedBankSchema(raw: Table, parseDate: DateParser, parseAmount: AmountParser)
    requires Rectangular(raw) && Distinct(CanonicalHeader(raw.header, BankAliases))
    ensures var b := PreparedBank(raw, parseDate, parseAmount);
            && WellFormed(b)
            && CanonicalHeader(raw.header, BankAliases) <= b.header
            && LabelSet(b.header) ==
                 LabelSet(CanonicalHeader(raw.header, BankAliases)) + LabelSet(BankColumns) +
                 {"_extracted_ref", "_norm_text"}
  {
    PreparedBankHeader(raw, parseDate, parseAmount);
    BankLabelsSchema(CanonicalHeader(raw.header, BankAliases));
  }

  lemma PreparedBankHeader(raw: Table, parseDate: DateParser, parseAmount: AmountParser)
    requires Rectangular(raw)
    ensures PreparedBank(raw, parseDate, parseAmount).header == BankLabels(CanonicalHeader(raw.header, BankAliases))
  {
    EnsuredColsHeader(Canonical(raw, BankAliases), BankColumns);
  }

  /** The labels of the prepared bank frame, from the canonical input labels. */
  function BankLabels(h: seq<string>): seq<string>
  {
    var h2 := AddLabel(AddLabel(EnsuredLabels(h, BankColumns), "date"), "amount");
    AddLabel(AddLabel(AddLabel(h2, "_extracted_ref"), "_extracted_ref"), "_norm_text")
  }

  lemma BankLabelsSchema(h: seq<string>)
    ensures h <= BankLabels(h)
    ensures LabelSet(BankLabels(h)) == LabelSet(h) + LabelSet(BankColumns) + {"_extracted_ref", "_norm_text"}
    ensures Distinct(h) ==> Distinct(BankLabels(h))
  {
    var h0 := EnsuredLabels(h, BankColumns);
    EnsuredLabelsSchema(h, BankColumns);
    var h1 := AddLabel(h0, "date");
    var h2 := AddLabel(h1, "amount");
    var h3 := AddLabel(h2, "_extracted_ref");
    var h4 := AddLabel(h3, "_extracted_ref");
    AddLabelSchema(h0, "date");
    AddLabelSchema(h1, "amount");
    AddLabelSchema(h2, "_extracted_ref");
    AddLabelSchema(h3, "_extracted_ref");
    AddLabelSchema(h4, "_norm_text");
    assert "date" in LabelSet(BankColumns) && "amount" in LabelSet(BankColumns);
  }

  /**
   * The prepared invoice frame has unique labels: the input's canonical
   * labels, then the canonical invoice columns, `issue_date` and the
   * helper column, and nothing else.
   */
  lemma PreparedInvoicesSchema(raw: Table, parseDate: DateParser, parseAmount: AmountParser)
    requires Rectangular(raw) && Distinct(CanonicalHeader(raw.header, InvoiceAliases))
    ensures var v := PreparedInvoices(raw, parseDate, parseAmount);
            && WellFormed(v)
            && CanonicalHeader(raw.header, InvoiceAliases) <= v.header
            && LabelSet(v.header) ==
                 LabelSet(CanonicalHeader(raw.header, InvoiceAliases)) + LabelSet(InvoiceColumns) +
                 {"issue_date", "_norm_customer"}
  {
    PreparedInvoicesHeader(raw, parseDate, parseAmount);
    InvoiceLabelsSchema(CanonicalHeader(raw.header, InvoiceAliases));
  }

  lemma PreparedInvoicesHeader(raw: Table, parseDate: DateParser, parseAmount: AmountParser)
    requires Rectangular(raw)
    ensures PreparedInvoices(raw, parseDate, parseAmount).header == InvoiceLabels(CanonicalHeader(raw.header, InvoiceAliases))
  {
    EnsuredColsHeader(Canonical(raw, InvoiceAliases), InvoiceColumns);
    var t1 := InvoiceBase(raw, parseDate);
    assert InvoiceDated(raw, parseDate).header == AddLabel(t1.header, "issue_date");
  }

  /** The labels of the prepared invoice frame, from the canonical input labels. */
  function InvoiceLabels(h: seq<string>): seq<string>
  {
    var h1 := AddLabel(EnsuredLabels(h, InvoiceColumns), "due_date");
    AddLabel(AddLabel(AddLabel(h1, "issue_date"), "amount"), "_norm_customer")
  }

  lemma InvoiceLabelsSchema(h: seq<string>)
    ensures h <= InvoiceLabels(h)
    ensures LabelSet(InvoiceLabels(h)) == LabelSet(h) + LabelSet(InvoiceColumns) + {"issue_date", "_norm_customer"}
    ensures Distinct(h) ==> Distinct(InvoiceLabels(h))
  {
    var h0 := EnsuredLabels(h, InvoiceColumns);
    EnsuredLabelsSchema(h, InvoiceColumns);
    var h1 := AddLabel(h0, "due_date");
    var h2 := AddLabel(h1, "issue_date");
    var h3 := AddLabel(h2, "amount");
    AddLabelSchema(h0, "due_date");
    AddLabelSchema(h1, "issue_date");
    AddLabelSchema(h2, "amount");
    AddLabelSchema(h3, "_norm_customer");
    assert "due_date" in LabelSet(InvoiceColumns) && "amount" in LabelSet(InvoiceColumns);
  }

  lemma InvoiceBaseCell(raw: Table, parseDate: DateParser, i: nat, x: string)
    requires Rectangular(raw) && i < |raw.rows|
    ensures var src := Canonical(raw, InvoiceAliases);
            Cell(InvoiceBase(raw, parseDate), i, x) ==
              if x == "due_date" then ToDate(parseDate, Cell(src, i, x)) else Cell(src, i, x)
  {
    var src := Canonical(raw, InvoiceAliases);
    var t0 := EnsuredCols(src, InvoiceColumns);
    EnsuredColsCells(src, InvoiceColumns, i, x);
    EnsuredColsCells(src, InvoiceColumns, i, "due_date");
    CellWithColumn(t0, "due_date", DateColumn(parseDate, Column(t0, "due_date")), i, x);
  }

  lemma InvoiceBaseHasIssueDate(raw: Table, parseDate: DateParser)
    requires Rectangular(raw)
    ensures "issue_date" in InvoiceBase(raw, parseDate).header <==>
            "issue_date" in CanonicalHeader(raw.header, InvoiceAliases)
  {
    var src := Canonical(raw, InvoiceAliases);
    EnsuredColsHeader(src, InvoiceColumns);
    IssueDateLabel(src.header);
  }

  /** The invoice columns and `due_date` bring no `issue_date` label with them. */
  lemma IssueDateLabel(h: seq<string>)
    ensures "issue_date" in AddLabel(EnsuredLabels(h, InvoiceColumns), "due_date") <==> "issue_date" in h
  {
    EnsuredLabelsSchema(h, InvoiceColumns);
    var h0 := EnsuredLabels(h, InvoiceColumns);
    AddLabelSchema(h0, "due_date");
    assert "issue_date" !in LabelSet(InvoiceColumns);
    assert "issue_date" in h0 <==> "issue_date" in LabelSet(h0);
    assert "issue_date" in h <==> "issue_date" in LabelSet(h);
  }

  lemma InvoiceDatedCell(raw: Table, parseDate: DateParser, i: nat, x: string)
    requires Rectangular(raw) && i < |raw.rows|
    ensures var src := Canonical(raw, InvoiceAliases);
            Cell(InvoiceDated(raw, parseDate), i, x) ==
              if x == "due_date" || (x == "issue_date" && "issue_date" !in src.header)
              then ToDate(parseDate, Cell(src, i, "due_date"))
              else Cell(src, i, x)
  {
    var t1 := InvoiceBase(raw, parseDate);
    InvoiceBaseHasIssueDate(raw, parseDate);
    InvoiceBaseCell(raw, parseDate, i, x);
    InvoiceBaseCell(raw, parseDate, i, "due_date");
    if "issue_date" !in t1.header {
      CellWithColumn(t1, "issue_date", Column(t1, "due_date"), i, x);
    }
  }

  /** The last two invoice stages: amounts converted, `_norm_customer` added. */
  lemma InvoiceFinalStages(raw: Table, parseDate: DateParser, parseAmount: AmountParser, i: nat, x: string)
    requires Rectangular(raw) && i < |raw.rows|
    ensures var t2 := InvoiceDated(raw, parseDate);
            Cell(PreparedInvoices(raw, parseDate, parseAmount), i, x) ==
              if x == "_norm_customer" then Str(NormalizeText(TextOf(Cell(t2, i, "customer"))))
              else if x == "amount" then ToNumeric(parseAmount, Cell(t2, i, x))
              else Cell(t2, i, x)
  {
    var t2 := InvoiceDated(raw, parseDate);
    var t3 := InvoiceTyped(raw, parseDate, parseAmount);
    var a := NumericColumn(parseAmount, Column(t2, "amount"));
    CellWithColumn(t3, "_norm_customer", NormCustomers(t3), i, x);
    CellWithColumn(t2, "amount", a, i, x);
    CellWithColumn(t2, "amount", a, i, "customer");
  }

  /**
   * Row by row, the prepared invoice frame holds the parsed due date and
   * amount; `issue_date` is the parsed due date when the input had no such
   * column, and the input's own cell, unparsed, when it had.
   */
  lemma PreparedInvoicesTyped(raw: Table, parseDate: DateParser, parseAmount: AmountParser, i: nat)
    requires Rectangular(raw) && i < |raw.rows|
    ensures var src := Canonical(raw, InvoiceAliases);
            var v := PreparedInvoices(raw, parseDate, parseAmount);
            && Cell(v, i, "due_date") == ToDate(parseDate, Cell(src, i, "due_date"))
            && Cell(v, i, "issue_date") ==
                 (if "issue_date" in src.header then Cell(src, i, "issue_date")
                  else ToDate(parseDate, Cell(src, i, "due_date")))
            && Cell(v, i, "amount") == ToNumeric(parseAmount, Cell(src, i, "amount"))
  {
    InvoiceFinalStages(raw, parseDate, parseAmount, i, "due_date");
    InvoiceFinalStages(raw, parseDate, parseAmount, i, "issue_date");
    InvoiceFinalStages(raw, parseDate, parseAmount, i, "amount");
    InvoiceDatedCell(raw, parseDate, i, "due_date");
    InvoiceDatedCell(raw, parseDate, i, "issue_date");
    InvoiceDatedCell(raw, parseDate, i, "amount");
  }

  /** `_norm_customer` is the normalised customer name. */
  lemma PreparedInvoicesCustomer(raw: Table, parseDate: DateParser, parseAmount: AmountParser, i: nat)
    requires Rectangular(raw) && i < |raw.rows|
    ensures Cell(PreparedInvoices(raw, parseDate, parseAmount), i, "_norm_customer") ==
            Str(NormalizeText(TextOf(Cell(Canonical(raw, InvoiceAliases), i, "customer"))))
  {
    InvoiceFinalStages(raw, parseDate, parseAmount, i, "_norm_customer");
    InvoiceDatedCell(raw, parseDate, i, "customer");
  }

  /** Every other invoice column keeps the input's cells; a column the input lacks reads as Null. */
  lemma PreparedInvoicesOther(raw: Table, parseDate: DateParser, parseAmount: AmountParser, i: nat, c: string)
    requires Rectangular(raw) && i < |raw.rows|
    requires c !in {"due_date", "issue_date", "amount", "_norm_customer"}
    ensures Cell(PreparedInvoices(raw, parseDate, parseAmount), i, c) == Cell(Canonical(raw, InvoiceAliases), i, c)
  {
    InvoiceFinalStages(raw, parseDate, parseAmount, i, c);
    InvoiceDatedCell(raw, parseDate, i, c);
  }

  /**
   * `safe_float` and `to_numeric(errors='coerce')` read a cell alike
   * exactly when the cell is not text, or `float()` and `to_numeric` read
   * its text alike.
   */
  lemma SafeFloatIsCoercion(parseFloat: AmountParser, parseAmount: AmountParser, v: Value)
    ensures AmountOf(ToNumeric(parseAmount, v)) == SafeFloat(parseFloat, v) <==>
            (v.Str? ==> parseFloat(v.text) == parseAmount(v.text))
  {
  }

  /**
   * `safe_float` of an input amount is the prepared amount, as long as
   * `float()` reads that cell's text as the amount coercion does.
   */
  lemma SafeFloatIsCoercedAmount(raw: Table, parseDate: DateParser, parseAmount: AmountParser,
                                 parseFloat: AmountParser, i: nat)
    requires Rectangular(raw) && i < |raw.rows|
    requires var v := Cell(Canonical(raw, BankAliases), i, "amount");
             v.Str? ==> parseFloat(v.text) == parseAmount(v.text)
    ensures AmountOf(Cell(PreparedBank(raw, parseDate, parseAmount), i, "amount")) ==
            SafeFloat(parseFloat, Cell(Canonical(raw, BankAliases), i, "amount"))
  {
    var v := Cell(Canonical(raw, BankAliases), i, "amount");
    PreparedBankTyped(raw, parseDate, parseAmount, i);
    SafeFloatIsCoercion(parseFloat, parseAmount, v);
  }

  /**
   * A bank frame whose one reference is a number (a reference column read
   * from CSV as all digits) cannot be joined into `_norm_text`, so
   * `preprocess` raises although every other step renders the number.
   */
  lemma NumericReferenceRefused(raw: Table)
    requires raw == Table(["reference"], [[Num(1234500)]])
    ensures Rectangular(raw) && !TextColumnsJoin(raw)
  {
    var name := raw.header[0];
    assert name !in BankAliases;
    assert Renamed(raw.header, BankAliases) == [name];
    assert forall k :: 0 <= k < |name| ==> ToLower(name[k]) == name[k];
    assert Lower(name) == name;
    var src := Canonical(raw, BankAliases);
    assert src.header == [name];
    assert Cell(src, 0, "reference") == Num(1234500);
  }
}

/** `preprocess` itself: both frames prepared, or the reason it fails. */
module Preprocessing {
  import opened Wrappers
  import opened Tables
  import opened Frames
  import opened Preparation
  import opened PreparationSpec

  /**
   * `preprocess(bank_df, inv_df)`: both frames are copied and the copies
   * prepared; the callers' frames are left as they were. A frame whose
   * labels repeat once aliased and lower-cased is refused, and a bank
   * frame with a number or a date in `description` or `reference` raises
   * where `_norm_text` joins the two columns.
   */
  method Preprocess(bankDf: Table, invDf: Table, parseDate: DateParser, parseAmount: AmountParser)
    returns (r: Result<Prepared, PreprocessError>)
    requires Rectangular(bankDf) && Rectangular(invDf)
    ensures r.Err? <==> !Distinct(CanonicalHeader(bankDf.header, BankAliases)) ||
                        !Distinct(CanonicalHeader(invDf.header, InvoiceAliases)) ||
                        !TextColumnsJoin(bankDf)
    ensures r.Err? && r.error == NonTextJoin ==> !TextColumnsJoin(bankDf)
    ensures r.Ok? ==> r.value == Prepared(PreparedBank(bankDf, parseDate, parseAmount),
                                          PreparedInvoices(invDf, parseDate, parseAmount))
    ensures r.Ok? ==> WellFormed(r.value.bank) && WellFormed(r.value.inv)
  {
    if !Distinct(CanonicalHeader(bankDf.header, BankAliases)) ||
       !Distinct(CanonicalHeader(invDf.header, InvoiceAliases)) {
      return Err(RepeatedLabel);
    }
    if !TextColumnsJoin(bankDf) {
      return Err(NonTextJoin);
    }
    PreparedWellFormed(bankDf, invDf, parseDate, parseAmount);
    var bank := PrepareBankCopy(bankDf, parseDate, parseAmount);
    var inv := PrepareInvoicesCopy(invDf, parseDate, parseAmount);
    r := Ok(Prepared(bank, inv));
  }

  /** `bank = bank_df.copy()` and the bank steps on the copy. */
  method PrepareBankCopy(bankDf: Table, parseDate: DateParser, parseAmount: AmountParser) returns (bank: Table)
    requires Rectangular(bankDf)
    ensures bank == PreparedBank(bankDf, parseDate, parseAmount)
  {
    var f := new Frame.Copy(bankDf);
    PrepareBank(f, parseDate, parseAmount);
    bank := f.View();
  }

  /** `inv = inv_df.copy()` and the invoice steps on the copy. */
  method PrepareInvoicesCopy(invDf: Table, parseDate: DateParser, parseAmount: AmountParser) returns (inv: Table)
    requires Rectangular(invDf)
    ensures inv == PreparedInvoices(invDf, parseDate, parseAmount)
  {
    var f := new Frame.Copy(invDf);
    PrepareInvoices(f, parseDate, parseAmount);
    inv := f.View();
  }

  /** Both prepared frames keep one column per label and one cell per column. */
  lemma PreparedWellFormed(bank: Table, inv: Table, parseDate: DateParser, parseAmount: AmountParser)
    requires Rectangular(bank) && Distinct(CanonicalHeader(bank.header, BankAliases))
    requires Rectangular(inv) && Distinct(CanonicalHeader(inv.header, InvoiceAliases))
    ensures WellFormed(PreparedBank(bank, parseDate, parseAmount))
    ensures WellFormed(PreparedInvoices(inv, parseDate, parseAmount))
  {
    PreparedBankSchema(bank, parseDate, parseAmount);
    PreparedInvoicesSchema(inv, parseDate, parseAmount);
  }
}
