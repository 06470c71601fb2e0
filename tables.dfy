/**
 * The tabular values the engine passes around: a data frame is a list of
 * column labels and a list of rows, one cell per column. Cells read from
 * CSV are text or missing; preprocessing turns amounts into cents and
 * dates into calendar dates.
 */
module Tables {
  import opened Wrappers
  import opened Chars

  datatype Date = Date(year: int, month: int, day: int)

  /** A cell: missing (None or NaN), text, an amount in cents, or a date. */
  datatype Value = Null | Str(text: string) | Num(cents: int) | Day(date: Date)

  datatype Table = Table(header: seq<string>, rows: seq<seq<Value>>)

  predicate Distinct(s: seq<string>)
  {
    forall i, j :: 0 <= i < j < |s| ==> s[i] != s[j]
  }

  /** Every row has one cell per column. */
  predicate Rectangular(t: Table)
  {
    forall r :: 0 <= r < |t.rows| ==> |t.rows[r]| == |t.header|
  }

  /** A frame whose labels are unique, as pandas frames read from CSV are. */
  predicate WellFormed(t: Table)
  {
    Distinct(t.header) && Rectangular(t)
  }

  /** `pd.DataFrame()`: no columns and no rows. */
  const EmptyFrame := Table([], [])

  /** `DataFrame.empty`: no rows or no columns. */
  predicate IsEmpty(t: Table)
  {
    |t.rows| == 0 || |t.header| == 0
  }

  /** Position of the first column labelled `name`, or |h| when there is none. */
  function IndexOf(h: seq<string>, name: string): (k: nat)
    ensures k <= |h|
    ensures k < |h| ==> h[k] == name
    ensures k == |h| <==> name !in h
    ensures forall j :: 0 <= j < k ==> h[j] != name
  {
    if h == [] then 0
    else if h[0] == name then 0
    else 1 + IndexOf(h[1..], name)
  }

  /** `df.at[r, name]`, with a missing column read as Null. */
  function Cell(t: Table, r: nat, name: string): Value
    requires Rectangular(t) && r < |t.rows|
  {
    var k := IndexOf(t.header, name);
    if k < |t.header| then t.rows[r][k] else Null
  }

  /** `df[name]` as a list of cells. */
  function Column(t: Table, name: string): (col: seq<Value>)
    requires Rectangular(t)
    ensures |col| == |t.rows|
    ensures forall r :: 0 <= r < |t.rows| ==> col[r] == Cell(t, r, name)
  {
    seq(|t.rows|, r requires 0 <= r < |t.rows| => Cell(t, r, name))
  }

  /** `df.loc[r].to_dict()`. */
  function RowDict(t: Table, r: nat): (d: map<string, Value>)
    requires Rectangular(t) && r < |t.rows|
    ensures d.Keys == set c | c in t.header
    ensures forall c :: c in d ==> d[c] == Cell(t, r, c)
  {
    map c | c in t.header :: Cell(t, r, c)
  }

  /** The character of decimal digit d. */
  function DigitChar(d: nat): (c: char)
    requires d < 10
    ensures IsDigit(c)
  {
    ('0' as int + d) as char
  }

  /** The decimal digits of n, without leading zeros. */
  function Digits(n: nat): (s: string)
    ensures |s| > 0 && forall i :: 0 <= i < |s| ==> IsDigit(s[i])
  {
    if n < 10 then [DigitChar(n)] else Digits(n / 10) + [DigitChar(n % 10)]
  }

  /** `str()` of an integer. */
  function IntText(n: int): (s: string)
    ensures |s| > 0 && (IsDigit(s[0]) || s[0] == '-')
  {
    if n < 0 then "-" + Digits(-n) else Digits(n)
  }

  /** An integer written with at least `width` digits, zeros in front. */
  function ZeroPadded(n: int, width: nat): (s: string)
    ensures |s| > 0 && (IsDigit(s[0]) || s[0] == '-')
  {
    var t := IntText(n);
    if n >= 0 && |t| < width then seq(width - |t|, _ => '0') + t else t
  }

  /** `str()` of an amount: the whole units, then the cents when there are any. */
  function AmountText(cents: int): (s: string)
    ensures |s| > 0 && (IsDigit(s[0]) || s[0] == '-')
  {
    var a := if cents < 0 then -cents else cents;
    var frac := a % 100;
    var fraction := if frac == 0 then ""
                    else "." + [DigitChar(frac / 10)] + (if frac % 10 == 0 then "" else [DigitChar(frac % 10)]);
    (if cents < 0 then "-" else "") + Digits(a / 100) + fraction
  }

  /** `str()` of a date: `YYYY-MM-DD`. */
  function DateText(d: Date): (s: string)
    ensures |s| > 0 && (IsDigit(s[0]) || s[0] == '-')
  {
    ZeroPadded(d.year, 4) + "-" + ZeroPadded(d.month, 2) + "-" + ZeroPadded(d.day, 2)
  }

  /**
   * `fillna('').astype(str)` of a cell, and `str()` of a present one: a
   * missing cell reads as `''`, text as itself, and a number or a date as
   * its written form, which starts with a digit or a minus sign.
   */
  function TextOf(v: Value): (r: string)
    ensures v.Null? ==> r == ""
    ensures v.Str? ==> r == v.text
    ensures (v.Num? || v.Day?) ==> r != "" && (IsDigit(r[0]) || r[0] == '-')
  {
    match v
    case Null => ""
    case Str(text) => text
    case Num(cents) => AmountText(cents)
    case Day(date) => DateText(date)
  }

  /** A numeric cell's amount; missing or non-numeric cells compare false. */
  function AmountOf(v: Value): Option<int>
  {
    if v.Num? then Some(v.cents) else None
  }

  /** The labels after assigning column `name`: unchanged if present, else appended. */
  function AddLabel(h: seq<string>, name: string): seq<string>
  {
    if name in h then h else h + [name]
  }

  /** `df[name] = vals`: overwrites the column in place, or appends it. */
  function WithColumn(t: Table, name: string, vals: seq<Value>): (t': Table)
    requires Rectangular(t) && |vals| == |t.rows|
    ensures Rectangular(t') && |t'.rows| == |t.rows|
    ensures t'.header == AddLabel(t.header, name)
  {
    var k := IndexOf(t.header, name);
    if k < |t.header| then
      Table(t.header, seq(|t.rows|, r requires 0 <= r < |t.rows| => t.rows[r][k := vals[r]]))
    else
      Table(t.header + [name], seq(|t.rows|, r requires 0 <= r < |t.rows| => t.rows[r] + [vals[r]]))
  }

  /** Assigning a column changes that column's cells and no other. */
  lemma CellWithColumn(t: Table, name: string, vals: seq<Value>, r: nat, c: string)
    requires Rectangular(t) && |vals| == |t.rows| && r < |t.rows|
    ensures Cell(WithColumn(t, name, vals), r, c) == if c == name then vals[r] else Cell(t, r, c)
  {
    var h := t.header;
    if name !in h {
      var h' := h + [name];
      if c in h {
        assert IndexOf(h', c) == IndexOf(h, c) by { IndexOfAppend(h, name, c); }
      } else if c == name {
        assert IndexOf(h', c) == |h| by { IndexOfAppend(h, name, c); }
      } else {
        assert c !in h';
      }
    }
  }

  lemma IndexOfAppend(h: seq<string>, x: string, c: string)
    ensures c in h ==> IndexOf(h + [x], c) == IndexOf(h, c)
    ensures c !in h && c == x ==> IndexOf(h + [x], c) == |h|
  {
    var k := IndexOf(h + [x], c);
    if c in h {
      assert (h + [x])[IndexOf(h, c)] == c;
    } else if c == x {
      assert (h + [x])[|h|] == c;
    }
  }

  /** The set of labels of a header. */
  function LabelSet(h: seq<string>): set<string>
  {
    set c | c in h
  }

  /** Adding a label keeps the old ones as a prefix, adds only `name`, and keeps labels unique. */
  lemma AddLabelSchema(h: seq<string>, name: string)
    ensures h <= AddLabel(h, name)
    ensures LabelSet(AddLabel(h, name)) == LabelSet(h) + {name}
    ensures Distinct(h) ==> Distinct(AddLabel(h, name))
  {
  }

  lemma WithColumnWellFormed(t: Table, name: string, vals: seq<Value>)
    requires WellFormed(t) && |vals| == |t.rows|
    ensures WellFormed(WithColumn(t, name, vals))
  {
  }

  /** Positions where the mask holds, in increasing order. */
  function MaskIndices(mask: seq<bool>): (ix: seq<nat>)
    ensures forall j :: 0 <= j < |ix| ==> ix[j] < |mask| && mask[ix[j]]
    ensures forall i :: 0 <= i < |mask| && mask[i] ==> i in ix
    ensures forall j, l :: 0 <= j < l < |ix| ==> ix[j] < ix[l]
  {
    if mask == [] then []
    else
      var ix := MaskIndices(mask[..|mask| - 1]);
      if mask[|mask| - 1] then ix + [|mask| - 1] else ix
  }

  /** `df[mask].reset_index(drop=True)`: the selected rows, in order. */
  function SelectRows(t: Table, mask: seq<bool>): (t': Table)
    requires Rectangular(t) && |mask| == |t.rows|
    ensures t'.header == t.header && Rectangular(t')
    ensures |t'.rows| == |MaskIndices(mask)|
    ensures forall j :: 0 <= j < |t'.rows| ==> t'.rows[j] == t.rows[MaskIndices(mask)[j]]
  {
    var ix := MaskIndices(mask);
    Table(t.header, seq(|ix|, j requires 0 <= j < |ix| => t.rows[ix[j]]))
  }
}
