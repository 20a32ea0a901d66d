/**
 * Broker holdings import: Zerodha and Groww exports read into a sheet, the
 * columns matched by name, the symbols cleaned and each row validated into a
 * holding or an error.
 */
module CsvImport {
  import opened Base
  import opened Text

  // ---------------------------------------------------------------------------
  // The sheet pandas hands back
  // ---------------------------------------------------------------------------

  /**
   * One cell: NaN (an empty field), or a value given by its `str()` text and
   * its `float()` value, `None` when `float()` raises on it.
   */
  datatype Cell = NaN | Value(text: string, number: Option<real>)

  /** `str(cell)` */
  function CellText(c: Cell): string {
    if c.NaN? then "nan" else c.text
  }

  /** `row[col]`; pandas pads short rows with NaN. */
  function CellAt(row: seq<Cell>, col: nat): Cell {
    if col < |row| then row[col] else NaN
  }

  /** What `read_csv` / `read_excel` make of the bytes: a frame, or the exception they raise. */
  datatype Sheet = Unreadable | Frame(columns: seq<string>, rows: seq<seq<Cell>>)

  /** An uploaded file: its name and what each reader makes of its bytes. */
  datatype Upload = Upload(filename: string, excel: Sheet, csvUtf8: Sheet, csvLatin1: Sheet)

  predicate IsExcel(filename: string) {
    EndsWith(filename, ".xlsx") || EndsWith(filename, ".xls")
  }

  /** The Zerodha reader falls back to Latin-1 when UTF-8 decoding fails. */
  function ZerodhaSheet(u: Upload): Sheet {
    if IsExcel(u.filename) then u.excel
    else if u.csvUtf8.Frame? then u.csvUtf8
    else u.csvLatin1
  }

  /** The Groww reader tries the default encoding only. */
  function GrowwSheet(u: Upload): Sheet {
    if IsExcel(u.filename) then u.excel else u.csvUtf8
  }

  // ---------------------------------------------------------------------------
  // Results
  // ---------------------------------------------------------------------------

  /**
   * An imported holding. The price-derived fields are `None` where Python
   * would carry a NaN (a Groww row whose LTP cell is empty).
   */
  datatype Holding = Holding(
    symbol: string,
    quantity: real,
    avgPrice: real,
    currentPrice: Option<real>,
    investedValue: real,
    currentValue: Option<real>,
    pnl: Option<real>,
    pnlPercent: Option<real>,
    source: string)

  datatype ImportError =
    | FileEmpty
    | NoInstrumentColumn
    | NoQuantityColumn
    | InvalidData(symbol: string, quantity: real, avgCost: real)
    | RowFailed(row: nat)
    | ParseFailed
    | GrowwParseFailed
    | UnknownFormat

  /** What one row contributes: nothing, a holding, or an error. */
  datatype RowOutcome = Skipped | Imported(holding: Holding) | Rejected(error: ImportError)

  datatype Parsed = Parsed(holdings: seq<Holding>, errors: seq<ImportError>)

  /** Appending one row's outcome to the `holdings` / `errors` lists. */
  function Add(p: Parsed, o: RowOutcome): Parsed {
    match o
    case Skipped => p
    case Imported(h) => Parsed(p.holdings + [h], p.errors)
    case Rejected(e) => Parsed(p.holdings, p.errors + [e])
  }

  // ---------------------------------------------------------------------------
  // Column names
  // ---------------------------------------------------------------------------

  /** Zerodha's header normalisation: strip, lower-case, drop every '.'. */
  function NormalizeColumn(c: string): string {
    Replace(Lower(Strip(c)), ".", "")
  }

  /** A normalised name holds no '.' and no upper-case letter. */
  lemma NormalizeColumnShape(c: string)
    ensures '.' !in NormalizeColumn(c)
    ensures forall i :: 0 <= i < |NormalizeColumn(c)| ==> !IsUpper(NormalizeColumn(c)[i])
  {
    var l := Lower(Strip(c));
    ReplaceCharRemovesIt(l, '.');
    ReplaceOnlyDeletes(l, ".");
    var r := NormalizeColumn(c);
    forall i | 0 <= i < |r| ensures !IsUpper(r[i]) {
      assert r[i] in l;
    }
  }

  function NormalizeColumns(cols: seq<string>): (r: seq<string>)
    ensures |r| == |cols|
    ensures forall i :: 0 <= i < |cols| ==> r[i] == NormalizeColumn(cols[i])
  {
    seq(|cols|, i requires 0 <= i < |cols| => NormalizeColumn(cols[i]))
  }

  /** Groww's header normalisation: strip and lower-case only. */
  function GrowwColumns(cols: seq<string>): (r: seq<string>)
    ensures |r| == |cols|
    ensures forall i :: 0 <= i < |cols| ==> r[i] == Lower(Strip(cols[i]))
  {
    seq(|cols|, i requires 0 <= i < |cols| => Lower(Strip(cols[i])))
  }

  const InstrumentOptions: seq<string> := ["instrument", "symbol", "tradingsymbol", "stock"]
  const QuantityOptions: seq<string> := ["qty", "quantity", "qty.", "shares"]
  const AvgCostOptions: seq<string> := ["avg cost", "avgcost", "avg_cost", "average cost", "buy avg", "buy price"]
  const LtpOptions: seq<string> := ["ltp", "last price", "current price", "cur val", "market price"]
  const InvestedOptions: seq<string> := ["invested", "investment", "buy value", "cost"]
  const PnlOptions: seq<string> := ["p&l", "pnl", "profit", "profit/loss", "gain/loss"]

  /** Position of the first column whose lower-cased name contains `opt`. */
  function ColumnWith(cols: seq<string>, opt: string): (r: Option<nat>)
    ensures r.Some? ==> r.value < |cols| && Contains(Lower(cols[r.value]), opt)
    ensures r.Some? ==> forall c :: 0 <= c < r.value ==> !Contains(Lower(cols[c]), opt)
    ensures r.None? <==> forall c :: 0 <= c < |cols| ==> !Contains(Lower(cols[c]), opt)
    decreases |cols|
  {
    if cols == [] then None
    else if Contains(Lower(cols[0]), opt) then Some(0)
    else
      var rest := ColumnWith(cols[1..], opt);
      assert forall c :: 0 < c < |cols| ==> cols[c] == cols[1..][c - 1];
      if rest.None? then None else Some(rest.value + 1)
  }

  /** `find_column(options)`: options in priority order, and for each the columns in sheet order. */
  function FindColumnOf(cols: seq<string>, options: seq<string>): Option<nat>
    decreases |options|
  {
    if options == [] then None
    else if ColumnWith(cols, options[0]).Some? then ColumnWith(cols, options[0])
    else FindColumnOf(cols, options[1..])
  }

  /**
   * The column found is the first one holding the earliest option that any
   * column holds.
   */
  lemma {:induction false} FindColumnPriority(cols: seq<string>, options: seq<string>)
    ensures FindColumnOf(cols, options).Some? ==>
      exists p :: 0 <= p < |options| && ColumnWith(cols, options[p]) == FindColumnOf(cols, options) &&
        forall q :: 0 <= q < p ==> ColumnWith(cols, options[q]).None?
    decreases |options|
  {
    if options != [] && ColumnWith(cols, options[0]).None? && FindColumnOf(cols, options).Some? {
      var rest := options[1..];
      FindColumnPriority(cols, rest);
      var p :| 0 <= p < |rest| && ColumnWith(cols, rest[p]) == FindColumnOf(cols, options) &&
        forall q :: 0 <= q < p ==> ColumnWith(cols, rest[q]).None?;
      assert options[p + 1] == rest[p];
      forall q | 0 <= q < p + 1 ensures ColumnWith(cols, options[q]).None? {
        if q > 0 { assert options[q] == rest[q - 1]; }
      }
    }
  }

  /** Nothing is found exactly when no column holds any option. */
  lemma {:induction false} FindColumnNone(cols: seq<string>, options: seq<string>)
    ensures FindColumnOf(cols, options).None? <==>
      forall p, c :: 0 <= p < |options| && 0 <= c < |cols| ==> !Contains(Lower(cols[c]), options[p])
    decreases |options|
  {
    if options != [] {
      var rest := options[1..];
      FindColumnNone(cols, rest);
      assert forall p :: 0 < p < |options| ==> options[p] == rest[p - 1];
    }
  }

  /** `find_column`: the nested loops with an early return. */
  method FindColumn(cols: seq<string>, options: seq<string>) returns (r: Option<nat>)
    ensures r == FindColumnOf(cols, options)
  {
    for p := 0 to |options|
      invariant FindColumnOf(cols, options) == FindColumnOf(cols, options[p..])
    {
      var opt := options[p];
      assert options[p..][0] == opt && options[p..][1..] == options[p + 1..];
      for c := 0 to |cols|
        invariant forall c' :: 0 <= c' < c ==> !Contains(Lower(cols[c']), opt)
      {
        if Contains(Lower(cols[c]), opt) {
          assert ColumnWith(cols, opt) == Some(c);
          return Some(c);
        }
      }
    }
    return None;
  }

  /**
   * The first column named exactly `name`; `row.get(name)` and `row[name]`
   * read it, or every such column when the name is `Shared`.
   */
  function ColumnNamed(cols: seq<string>, name: string): (r: Option<nat>)
    ensures r.Some? ==> r.value < |cols| && cols[r.value] == name
    ensures r.Some? ==> forall j :: 0 <= j < r.value ==> cols[j] != name
    ensures r.None? <==> name !in cols
    decreases |cols|
  {
    if cols == [] then None
    else if cols[0] == name then Some(0)
    else
      var rest := ColumnNamed(cols[1..], name);
      assert name in cols[1..] <==> name in cols;
      if rest.None? then None else Some(rest.value + 1)
  }

  /**
   * Another column carries the name of column `c` as well: `row[name]` and
   * `row.get(name)` then give a Series of all those cells, and both its truth
   * value and `float()` of it raise.
   */
  predicate Shared(cols: seq<string>, c: Option<nat>) {
    c.Some? && c.value < |cols| && exists j :: 0 <= j < |cols| && j != c.value && cols[j] == cols[c.value]
  }

  // ---------------------------------------------------------------------------
  // Symbols
  // ---------------------------------------------------------------------------

  /** Drop "-BE", "-EQ" and spaces (in that order), then one trailing "BSE" or "NSE". */
  function CleanSymbol(s: string): string {
    var r := Replace(Replace(Replace(s, "-BE", ""), "-EQ", ""), " ", "");
    if EndsWith(r, "BSE") || EndsWith(r, "NSE") then r[..|r| - 3] else r
  }

  /** Cleaning an upper-cased symbol keeps it upper-case, removes every space and never lengthens it. */
  lemma CleanSymbolShape(s: string)
    requires IsUpperCase(s)
    ensures IsUpperCase(CleanSymbol(s))
    ensures ' ' !in CleanSymbol(s)
    ensures |CleanSymbol(s)| <= |s|
  {
    var a := Replace(s, "-BE", "");
    var b := Replace(a, "-EQ", "");
    var r := Replace(b, " ", "");
    ReplaceOnlyDeletes(s, "-BE");
    ReplaceOnlyDeletes(a, "-EQ");
    ReplaceOnlyDeletes(b, " ");
    ReplaceCharRemovesIt(b, ' ');
    ReplaceShrinks(s, "-BE");
    ReplaceShrinks(a, "-EQ");
    ReplaceShrinks(b, " ");
    forall i | 0 <= i < |r| ensures !IsLower(r[i]) {
      assert r[i] in b;
      var j :| 0 <= j < |b| && b[j] == r[i];
      assert b[j] in a;
      var k :| 0 <= k < |a| && a[k] == b[j];
      assert a[k] in s;
    }
    var c := CleanSymbol(s);
    forall i | 0 <= i < |c| ensures c[i] == r[i] { }
  }

  /** Drops nothing from a symbol that holds no '-' and no space. */
  lemma CleanSymbolPlain(base: string)
    requires '-' !in base && ' ' !in base
    requires !EndsWith(base, "BSE") && !EndsWith(base, "NSE")
    ensures CleanSymbol(base) == base
  {
    assert base + [] == base;
    ReplaceSkipsPrefix(base, [], "-BE", "");
    ReplaceSkipsPrefix(base, [], "-EQ", "");
    ReplaceSkipsPrefix(base, [], " ", "");
  }

  /** A plain symbol loses its "-EQ" or "-BE" series suffix. */
  lemma CleanSymbolSeries(base: string, series: string)
    requires '-' !in base && ' ' !in base
    requires !EndsWith(base, "BSE") && !EndsWith(base, "NSE")
    requires series == "-EQ" || series == "-BE"
    ensures CleanSymbol(base + series) == base
  {
    ReplaceSkipsPrefix(base, series, "-BE", "");
    var a := Replace(base + series, "-BE", "");
    SuffixFacts();
    if series == "-EQ" {
      assert a == base + "-EQ";
    } else {
      assert a == base + [];
    }
    assert a == base + "-EQ" || a == base + [];
    ReplaceSkipsPrefix(base, "-EQ", "-EQ", "");
    ReplaceSkipsPrefix(base, [], "-EQ", "");
    assert base + [] == base;
    assert Replace(a, "-EQ", "") == base;
    ReplaceSkipsPrefix(base, [], " ", "");
  }

  lemma SuffixFacts()
    ensures Replace("-EQ", "-BE", "") == "-EQ"
    ensures Replace("-BE", "-BE", "") == []
    ensures Replace("-EQ", "-EQ", "") == []
  {
  }

  lemma NseFacts()
    ensures Replace("NSE", "-BE", "") == "NSE"
    ensures Replace("NSE", "-EQ", "") == "NSE"
    ensures Replace("NSE", " ", "") == "NSE"
  {
  }

  lemma BseFacts()
    ensures Replace("BSE", "-BE", "") == "BSE"
    ensures Replace("BSE", "-EQ", "") == "BSE"
    ensures Replace("BSE", " ", "") == "BSE"
  {
  }

  /** A plain symbol loses one "NSE" or "BSE" tail. */
  lemma CleanSymbolExchange(base: string, exchange: string)
    requires '-' !in base && ' ' !in base
    requires exchange == "NSE" || exchange == "BSE"
    ensures CleanSymbol(base + exchange) == base
  {
    ReplaceSkipsPrefix(base, exchange, "-BE", "");
    ReplaceSkipsPrefix(base, exchange, "-EQ", "");
    ReplaceSkipsPrefix(base, exchange, " ", "");
    if exchange == "NSE" { NseFacts(); } else { BseFacts(); }
    assert (base + exchange)[..|base|] == base;
  }

  /** The replacements make a single pass each: a "-BE" can survive cleaning. */
  lemma CleanSymbolSinglePass()
    ensures CleanSymbol("A-B-BEE") == "A-BE"
  {
    SinglePassFirst();
    SinglePassRest();
  }

  lemma SinglePassFirst()
    ensures Replace("A-B-BEE", "-BE", "") == "A-BE"
  {
    assert Replace("E", "-BE", "") == "E";
    assert StartsWith("-BEE", "-BE");
    assert Replace("-BEE", "-BE", "") == "E";
    assert !StartsWith("B-BEE", "-BE") by { assert ("B-BEE")[0] != ("-BE")[0]; }
    assert Replace("B-BEE", "-BE", "") == "BE";
    assert !StartsWith("-B-BEE", "-BE") by { assert ("-B-BEE")[..3][2] != ("-BE")[2]; }
    assert Replace("-B-BEE", "-BE", "") == "-BE";
    assert !StartsWith("A-B-BEE", "-BE") by { assert ("A-B-BEE")[0] != ("-BE")[0]; }
  }

  lemma SinglePassRest()
    ensures Replace("A-BE", "-EQ", "") == "A-BE"
    ensures Replace("A-BE", " ", "") == "A-BE"
  {
  }

  // ---------------------------------------------------------------------------
  // Zerodha
  // ---------------------------------------------------------------------------

  /** The normalised header and the matched columns, as positions in it. */
  datatype ZerodhaColumns = ZerodhaColumns(
    names: seq<string>, instrument: Option<nat>, quantity: Option<nat>, avgCost: Option<nat>,
    ltp: Option<nat>, invested: Option<nat>, pnl: Option<nat>)

  function ZerodhaColumnsOf(cols: seq<string>): ZerodhaColumns {
    ZerodhaColumns(cols,
      FindColumnOf(cols, InstrumentOptions), FindColumnOf(cols, QuantityOptions),
      FindColumnOf(cols, AvgCostOptions), FindColumnOf(cols, LtpOptions),
      FindColumnOf(cols, InvestedOptions), FindColumnOf(cols, PnlOptions))
  }

  /**
   * `float(row[col]) if col and pd.notna(row[col]) else default`; `None` when
   * it raises: `float` fails on the cell, or the column's name is shared and
   * the truth value of `pd.notna` of the Series is ambiguous.
   */
  function ReadOr(names: seq<string>, row: seq<Cell>, col: Option<nat>, default: real): Option<real> {
    if Shared(names, col) then None
    else if col.Some? && CellAt(row, col.value).Value? then CellAt(row, col.value).number
    else Some(default)
  }

  /** The upper-cased, stripped text of the instrument cell. */
  function RawSymbol(k: ZerodhaColumns, row: seq<Cell>): string
    requires k.instrument.Some?
  {
    Upper(Strip(CellText(CellAt(row, k.instrument.value))))
  }

  predicate SkippedRow(k: ZerodhaColumns, row: seq<Cell>)
    requires k.instrument.Some?
  {
    RawSymbol(k, row) == "" || RawSymbol(k, row) == "NAN"
  }

  /** Products and quotients kept behind names, so that the solver treats them as terms. */
  function Times(a: real, b: real): real { a * b }

  /** `pnl / invested * 100` when invested is positive, else 0. */
  function PnlPercent(pnl: real, invested: real): real {
    if invested > 0.0 then pnl / invested * 100.0 else 0.0
  }

  /** The five numbers of a Zerodha row, after their defaults. */
  datatype Values = Values(quantity: real, avgCost: real, ltp: real, invested: real, pnl: real)

  /** The conversions, in source order; `None` when one of them raises. */
  function ReadValues(k: ZerodhaColumns, row: seq<Cell>): Option<Values> {
    var q := ReadOr(k.names, row, k.quantity, 0.0);
    var a := ReadOr(k.names, row, k.avgCost, 0.0);
    if q.None? || a.None? then None else
    var l := ReadOr(k.names, row, k.ltp, a.value);
    if l.None? then None else
    var inv := ReadOr(k.names, row, k.invested, Times(q.value, a.value));
    var p := ReadOr(k.names, row, k.pnl, Times(l.value - a.value, q.value));
    if inv.None? || p.None? then None
    else Some(Values(q.value, a.value, l.value, inv.value, p.value))
  }

  /** A converted row is a holding when quantity and average cost are positive, else an error. */
  function Validate(symbol: string, v: Values): RowOutcome {
    if v.quantity > 0.0 && v.avgCost > 0.0 then
      Imported(Holding(symbol, v.quantity, v.avgCost, Some(v.ltp), v.invested, Some(Times(v.quantity, v.ltp)),
                       Some(v.pnl), Some(PnlPercent(v.pnl, v.invested)), "zerodha"))
    else Rejected(InvalidData(symbol, v.quantity, v.avgCost))
  }

  /** One pass of the Zerodha row loop; `idx` is the row's position. */
  function ZerodhaRow(k: ZerodhaColumns, row: seq<Cell>, idx: nat): RowOutcome
    requires k.instrument.Some? && k.quantity.Some?
  {
    if SkippedRow(k, row) then Skipped
    else
      var v := ReadValues(k, row);
      if v.None? then Rejected(RowFailed(idx + 1))
      else Validate(CleanSymbol(RawSymbol(k, row)), v.value)
  }

  /** A column that is absent, or NaN in this row. */
  predicate Blank(row: seq<Cell>, col: Option<nat>) {
    col.None? || CellAt(row, col.value).NaN?
  }

  /**
   * A row that is not skipped becomes a holding exactly when its values convert
   * and quantity and average cost are positive; a row whose values convert but
   * fail that test is reported as invalid data for the cleaned symbol, and a
   * row with a value that does not convert is reported by its number.
   */
  lemma ZerodhaRowCases(k: ZerodhaColumns, row: seq<Cell>, idx: nat)
    requires k.instrument.Some? && k.quantity.Some?
    ensures ZerodhaRow(k, row, idx).Skipped? <==> SkippedRow(k, row)
    ensures ZerodhaRow(k, row, idx).Imported? <==>
      !SkippedRow(k, row) && ReadValues(k, row).Some? &&
      ReadValues(k, row).value.quantity > 0.0 && ReadValues(k, row).value.avgCost > 0.0
    ensures !SkippedRow(k, row) && ReadValues(k, row).Some? && !ZerodhaRow(k, row, idx).Imported? ==>
      ZerodhaRow(k, row, idx) == Rejected(InvalidData(CleanSymbol(RawSymbol(k, row)),
        ReadValues(k, row).value.quantity, ReadValues(k, row).value.avgCost))
    ensures !SkippedRow(k, row) && ReadValues(k, row).None? ==> ZerodhaRow(k, row, idx) == Rejected(RowFailed(idx + 1))
    ensures !SkippedRow(k, row) && (Shared(k.names, k.quantity) || Shared(k.names, k.avgCost) || Shared(k.names, k.ltp) ||
                                     Shared(k.names, k.invested) || Shared(k.names, k.pnl)) ==>
      ZerodhaRow(k, row, idx) == Rejected(RowFailed(idx + 1))
  {
  }

  /**
   * The defaults: LTP falls back to the average cost, invested to quantity
   * times average cost, and P&L to (LTP - average cost) times quantity.
   */
  lemma ReadValuesDefaults(k: ZerodhaColumns, row: seq<Cell>)
    requires ReadValues(k, row).Some?
    ensures var v := ReadValues(k, row).value;
      && (Blank(row, k.quantity) ==> v.quantity == 0.0)
      && (Blank(row, k.avgCost) ==> v.avgCost == 0.0)
      && (Blank(row, k.ltp) ==> v.ltp == v.avgCost)
      && (Blank(row, k.invested) ==> v.invested == Times(v.quantity, v.avgCost))
      && (Blank(row, k.pnl) ==> v.pnl == Times(v.ltp - v.avgCost, v.quantity))
      && (!Blank(row, k.quantity) ==> Some(v.quantity) == CellAt(row, k.quantity.value).number)
      && (!Blank(row, k.avgCost) ==> Some(v.avgCost) == CellAt(row, k.avgCost.value).number)
  {
  }

  /**
   * An imported Zerodha holding is positive, carries the cleaned symbol, values
   * its position at the LTP and has a P&L percentage of 0 unless the invested
   * value is positive.
   */
  lemma ZerodhaHolding(k: ZerodhaColumns, row: seq<Cell>, idx: nat)
    requires k.instrument.Some? && k.quantity.Some?
    requires ZerodhaRow(k, row, idx).Imported?
    ensures var h := ZerodhaRow(k, row, idx).holding;
      && h.quantity > 0.0 && h.avgPrice > 0.0 && h.source == "zerodha"
      && h.symbol == CleanSymbol(RawSymbol(k, row))
      && h.currentPrice.Some? && h.pnl.Some?
      && h.currentValue == Some(Times(h.quantity, h.currentPrice.value))
      && h.pnlPercent == Some(PnlPercent(h.pnl.value, h.investedValue))
  {
    var v := ReadValues(k, row).value;
    assert ZerodhaRow(k, row, idx) == Validate(CleanSymbol(RawSymbol(k, row)), v);
  }

  /** The row loop over the sheet, rows in order. */
  function ZerodhaRows(k: ZerodhaColumns, rows: seq<seq<Cell>>): Parsed
    requires k.instrument.Some? && k.quantity.Some?
    decreases |rows|
  {
    if rows == [] then Parsed([], [])
    else Add(ZerodhaRows(k, rows[..|rows| - 1]), ZerodhaRow(k, rows[|rows| - 1], |rows| - 1))
  }

  lemma ZerodhaRowsStep(k: ZerodhaColumns, rows: seq<seq<Cell>>, i: nat)
    requires k.instrument.Some? && k.quantity.Some? && i < |rows|
    ensures ZerodhaRows(k, rows[..i + 1]) == Add(ZerodhaRows(k, rows[..i]), ZerodhaRow(k, rows[i], i))
  {
    assert rows[..i + 1][..i] == rows[..i];
  }

  /** `parse_zerodha_holdings` */
  function ZerodhaOf(u: Upload): Parsed {
    var sheet := ZerodhaSheet(u);
    if sheet.Unreadable? then Parsed([], [ParseFailed])
    else if sheet.rows == [] || sheet.columns == [] then Parsed([], [FileEmpty])
    else
      var k := ZerodhaColumnsOf(NormalizeColumns(sheet.columns));
      if k.instrument.None? then Parsed([], [NoInstrumentColumn])
      else if k.quantity.None? then Parsed([], [NoQuantityColumn])
      else ZerodhaRows(k, sheet.rows)
  }

  /**
   * Every row not skipped leaves exactly one entry: a holding or an error.
   */
  lemma {:induction false} ZerodhaRowsCount(k: ZerodhaColumns, rows: seq<seq<Cell>>)
    requires k.instrument.Some? && k.quantity.Some?
    ensures |ZerodhaRows(k, rows).holdings| + |ZerodhaRows(k, rows).errors| + SkippedCount(k, rows) == |rows|
    decreases |rows|
  {
    if rows != [] {
      var n := |rows| - 1;
      var init := rows[..n];
      ZerodhaRowsCount(k, init);
      ZerodhaRowsStep(k, rows, n);
      assert rows[..n + 1] == rows;
      ZerodhaRowSkips(k, rows[n], n);
      AddCounts(ZerodhaRows(k, init), ZerodhaRow(k, rows[n], n));
    }
  }

  /** The number of rows the loop skips. */
  function SkippedCount(k: ZerodhaColumns, rows: seq<seq<Cell>>): nat
    requires k.instrument.Some?
    decreases |rows|
  {
    if rows == [] then 0
    else SkippedCount(k, rows[..|rows| - 1]) + (if SkippedRow(k, rows[|rows| - 1]) then 1 else 0)
  }

  lemma ZerodhaRowSkips(k: ZerodhaColumns, row: seq<Cell>, idx: nat)
    requires k.instrument.Some? && k.quantity.Some?
    ensures ZerodhaRow(k, row, idx).Skipped? <==> SkippedRow(k, row)
  {
  }

  /** A row outcome adds one entry to the lists unless the row is skipped. */
  lemma AddCounts(p: Parsed, o: RowOutcome)
    ensures |Add(p, o).holdings| + |Add(p, o).errors| == |p.holdings| + |p.errors| + (if o.Skipped? then 0 else 1)
  {
  }

  /** Every holding the loop produces came from a valid row. */
  lemma {:induction false} ZerodhaRowsValid(k: ZerodhaColumns, rows: seq<seq<Cell>>)
    requires k.instrument.Some? && k.quantity.Some?
    ensures forall h :: h in ZerodhaRows(k, rows).holdings ==>
      h.quantity > 0.0 && h.avgPrice > 0.0 && h.source == "zerodha"
    decreases |rows|
  {
    if rows != [] {
      ZerodhaRowsValid(k, rows[..|rows| - 1]);
      var o := ZerodhaRow(k, rows[|rows| - 1], |rows| - 1);
      if o.Imported? { ZerodhaHolding(k, rows[|rows| - 1], |rows| - 1); }
    }
  }

  /** With the quantity column's name shared by another column, no Zerodha row becomes a holding. */
  lemma {:induction false} ZerodhaSharedQuantity(k: ZerodhaColumns, rows: seq<seq<Cell>>)
    requires k.instrument.Some? && k.quantity.Some? && Shared(k.names, k.quantity)
    ensures ZerodhaRows(k, rows).holdings == []
    ensures forall e :: e in ZerodhaRows(k, rows).errors ==> e.RowFailed?
    decreases |rows|
  {
    if rows != [] {
      ZerodhaSharedQuantity(k, rows[..|rows| - 1]);
      ZerodhaRowCases(k, rows[|rows| - 1], |rows| - 1);
    }
  }

  /**
   * The file-level errors: an unreadable or empty file, or a missing
   * instrument or quantity column, gives no holdings and that one error.
   */
  lemma ZerodhaFileErrors(u: Upload)
    ensures ZerodhaSheet(u).Unreadable? ==> ZerodhaOf(u) == Parsed([], [ParseFailed])
    ensures ZerodhaSheet(u).Frame? && (ZerodhaSheet(u).rows == [] || ZerodhaSheet(u).columns == []) ==>
      ZerodhaOf(u) == Parsed([], [FileEmpty])
    ensures (HasRows(u) && FindColumnOf(Headers(u), InstrumentOptions).None?) ==>
      ZerodhaOf(u) == Parsed([], [NoInstrumentColumn])
    ensures (HasRows(u) && FindColumnOf(Headers(u), InstrumentOptions).Some? &&
             FindColumnOf(Headers(u), QuantityOptions).None?) ==>
      ZerodhaOf(u) == Parsed([], [NoQuantityColumn])
    ensures ZerodhaOf(u).holdings != [] ==>
      HasRows(u) && FindColumnOf(Headers(u), InstrumentOptions).Some? &&
      FindColumnOf(Headers(u), QuantityOptions).Some?
  {
  }

  predicate HasRows(u: Upload) {
    ZerodhaSheet(u).Frame? && ZerodhaSheet(u).rows != [] && ZerodhaSheet(u).columns != []
  }

  /** The normalised header of the sheet Zerodha's reader produced. */
  function Headers(u: Upload): seq<string>
    requires ZerodhaSheet(u).Frame?
  {
    NormalizeColumns(ZerodhaSheet(u).columns)
  }

  /** `parse_zerodha_holdings`: the column lookups and the row loop. */
  method ParseZerodha(u: Upload) returns (holdings: seq<Holding>, errors: seq<ImportError>)
    ensures Parsed(holdings, errors) == ZerodhaOf(u)
  {
    var sheet := ZerodhaSheet(u);
    if sheet.Unreadable? {
      return [], [ParseFailed];
    }
    if sheet.rows == [] || sheet.columns == [] {
      return [], [FileEmpty];
    }
    var cols := NormalizeColumns(sheet.columns);
    var instrument := FindColumn(cols, InstrumentOptions);
    var quantity := FindColumn(cols, QuantityOptions);
    var avgCost := FindColumn(cols, AvgCostOptions);
    var ltp := FindColumn(cols, LtpOptions);
    var invested := FindColumn(cols, InvestedOptions);
    var pnl := FindColumn(cols, PnlOptions);
    var k := ZerodhaColumns(cols, instrument, quantity, avgCost, ltp, invested, pnl);
    if instrument.None? {
      return [], [NoInstrumentColumn];
    }
    if quantity.None? {
      return [], [NoQuantityColumn];
    }
    holdings, errors := [], [];
    var rows := sheet.rows;
    for i := 0 to |rows|
      invariant Parsed(holdings, errors) == ZerodhaRows(k, rows[..i])
    {
      var o := ZerodhaRow(k, rows[i], i);
      ZerodhaRowsStep(k, rows, i);
      if o.Imported? {
        holdings := holdings + [o.holding];
      } else if o.Rejected? {
        errors := errors + [o.error];
      }
    }
    assert rows[..|rows|] == rows;
  }

  // ---------------------------------------------------------------------------
  // Groww
  // ---------------------------------------------------------------------------

  /** What `float()` makes of a value: a number, NaN, or an exception. */
  datatype Reading = Number(x: real) | NotANumber | Raises

  function FloatOf(c: Cell): Reading {
    if c.NaN? then Reading.NotANumber
    else if c.number.Some? then Number(c.number.value)
    else Raises
  }

  /** `row.get(name, fallback)` */
  function Get(cols: seq<string>, row: seq<Cell>, name: string, fallback: Cell): Cell {
    var c := ColumnNamed(cols, name);
    if c.Some? then CellAt(row, c.value) else fallback
  }

  /** `float(row.get(name, fallback))`, the fallback already converted; a shared name raises. */
  function GetFloat(cols: seq<string>, row: seq<Cell>, name: string, fallback: Reading): Reading {
    var c := ColumnNamed(cols, name);
    if Shared(cols, c) then Raises
    else if c.Some? then FloatOf(CellAt(row, c.value)) else fallback
  }

  predicate Positive(r: Reading) { r.Number? && r.x > 0.0 }

  function AsOption(r: Reading): Option<real> {
    if r.Number? then Some(r.x) else None
  }

  function GrowwSymbol(cols: seq<string>, row: seq<Cell>): string {
    Upper(Strip(CellText(Get(cols, row, "symbol", Get(cols, row, "stock name", Value("", None))))))
  }

  function GrowwQuantity(cols: seq<string>, row: seq<Cell>): Reading {
    GetFloat(cols, row, "quantity", GetFloat(cols, row, "qty", Number(0.0)))
  }

  function GrowwAvgCost(cols: seq<string>, row: seq<Cell>): Reading {
    GetFloat(cols, row, "avg. buy price", GetFloat(cols, row, "buy avg", Number(0.0)))
  }

  /** The three `float()` results of a Groww row; LTP falls back to the average cost. */
  datatype Readings = Readings(quantity: Reading, avgCost: Reading, ltp: Reading)

  function GrowwReadings(cols: seq<string>, row: seq<Cell>): Readings {
    var avgCost := GrowwAvgCost(cols, row);
    Readings(GrowwQuantity(cols, row), avgCost,
             GetFloat(cols, row, "ltp", GetFloat(cols, row, "current price", avgCost)))
  }

  /** None of the conversions raises. */
  predicate Converts(r: Readings) {
    !r.quantity.Raises? && !r.avgCost.Raises? && !r.ltp.Raises?
  }

  /** `(ltp - avg) / avg * 100` */
  function ChangePercent(ltp: real, avg: real): real
    requires avg != 0.0
  {
    (ltp - avg) / avg * 100.0
  }

  /** A converted Groww row is a holding when quantity and average cost are positive; otherwise it is dropped. */
  function GrowwValidate(symbol: string, r: Readings): RowOutcome {
    if Positive(r.quantity) && Positive(r.avgCost) then
      var q, a, l := r.quantity.x, r.avgCost.x, AsOption(r.ltp);
      Imported(Holding(symbol, q, a, l, Times(q, a),
        if l.Some? then Some(Times(q, l.value)) else None,
        if l.Some? then Some(Times(l.value - a, q)) else None,
        if l.Some? then Some(ChangePercent(l.value, a)) else None,
        "groww"))
    else Skipped
  }

  /** One pass of the Groww row loop: invalid rows are dropped without an error. */
  function GrowwRow(cols: seq<string>, row: seq<Cell>, idx: nat): RowOutcome {
    GrowwOutcome(GrowwSymbol(cols, row), GrowwReadings(cols, row), idx)
  }

  /** The row loop's branches once the symbol and the readings are known. */
  function GrowwOutcome(symbol: string, r: Readings, idx: nat): RowOutcome {
    if symbol == "" then Skipped
    else if !Converts(r) then Rejected(RowFailed(idx + 1))
    else GrowwValidate(symbol, r)
  }

  /**
   * A Groww row becomes a holding exactly when its symbol is not empty, its
   * values convert and quantity and average cost are positive; the only
   * error a row can leave is a conversion failure.
   */
  lemma GrowwRowCases(cols: seq<string>, row: seq<Cell>, idx: nat)
    ensures GrowwRow(cols, row, idx).Imported? <==>
      GrowwSymbol(cols, row) != "" && Converts(GrowwReadings(cols, row)) &&
      Positive(GrowwReadings(cols, row).quantity) && Positive(GrowwReadings(cols, row).avgCost)
    ensures GrowwRow(cols, row, idx).Rejected? <==>
      GrowwSymbol(cols, row) != "" && !Converts(GrowwReadings(cols, row))
    ensures GrowwRow(cols, row, idx).Rejected? ==> GrowwRow(cols, row, idx).error == RowFailed(idx + 1)
    ensures (GrowwSymbol(cols, row) != "" &&
             (Shared(cols, ColumnNamed(cols, "quantity")) || Shared(cols, ColumnNamed(cols, "avg. buy price")) ||
              Shared(cols, ColumnNamed(cols, "ltp")))) ==>
      GrowwRow(cols, row, idx) == Rejected(RowFailed(idx + 1))
  {
  }

  /**
   * A Groww holding built from `symbol` and an LTP reading: positive quantity
   * and cost, source `groww`, invested value quantity times cost, and P&L and
   * percentage from the LTP when there is one.
   */
  predicate GrowwHoldingOf(h: Holding, symbol: string, ltp: Reading) {
    && h.symbol == symbol && h.source == "groww"
    && h.quantity > 0.0 && h.avgPrice > 0.0 && h.investedValue == Times(h.quantity, h.avgPrice)
    && h.currentPrice == AsOption(ltp)
    && (h.currentPrice.Some? ==> h.pnl == Some(Times(h.currentPrice.value - h.avgPrice, h.quantity)))
    && (h.currentPrice.Some? ==> h.pnlPercent == Some(ChangePercent(h.currentPrice.value, h.avgPrice)))
  }

  /**
   * An imported Groww holding is positive and carries the row's symbol; its
   * invested value is quantity times average cost, and its P&L follows from
   * the LTP.
   */
  lemma GrowwHolding(cols: seq<string>, row: seq<Cell>, idx: nat)
    requires GrowwRow(cols, row, idx).Imported?
    ensures GrowwHoldingOf(GrowwRow(cols, row, idx).holding, GrowwSymbol(cols, row), GrowwReadings(cols, row).ltp)
  {
    var symbol, r := GrowwSymbol(cols, row), GrowwReadings(cols, row);
    assert GrowwRow(cols, row, idx) == GrowwOutcome(symbol, r, idx);
    GrowwValidated(symbol, r, idx);
  }

  lemma GrowwValidated(symbol: string, r: Readings, idx: nat)
    requires GrowwOutcome(symbol, r, idx).Imported?
    ensures GrowwHoldingOf(GrowwOutcome(symbol, r, idx).holding, symbol, r.ltp)
  {
  }

  /** Without an LTP or current-price column, LTP is the average cost. */
  lemma GrowwLtpDefault(cols: seq<string>, row: seq<Cell>)
    requires ColumnNamed(cols, "ltp").None? && ColumnNamed(cols, "current price").None?
    ensures GrowwReadings(cols, row).ltp == GrowwReadings(cols, row).avgCost
  {
  }

  function GrowwRows(cols: seq<string>, rows: seq<seq<Cell>>): Parsed
    decreases |rows|
  {
    if rows == [] then Parsed([], [])
    else Add(GrowwRows(cols, rows[..|rows| - 1]), GrowwRow(cols, rows[|rows| - 1], |rows| - 1))
  }

  lemma GrowwRowsStep(cols: seq<string>, rows: seq<seq<Cell>>, i: nat)
    requires i < |rows|
    ensures GrowwRows(cols, rows[..i + 1]) == Add(GrowwRows(cols, rows[..i]), GrowwRow(cols, rows[i], i))
  {
    assert rows[..i + 1][..i] == rows[..i];
  }

  /** `parse_groww_holdings`: no emptiness check and no column-missing errors. */
  function GrowwOf(u: Upload): Parsed {
    var sheet := GrowwSheet(u);
    if sheet.Unreadable? then Parsed([], [GrowwParseFailed])
    else GrowwRows(GrowwColumns(sheet.columns), sheet.rows)
  }

  /** Groww holdings are all valid, and its row errors are all conversion failures. */
  lemma {:induction false} GrowwRowsValid(cols: seq<string>, rows: seq<seq<Cell>>)
    ensures forall h :: h in GrowwRows(cols, rows).holdings ==>
      h.quantity > 0.0 && h.avgPrice > 0.0 && h.source == "groww"
    ensures forall e :: e in GrowwRows(cols, rows).errors ==> e.RowFailed? && 1 <= e.row <= |rows|
    ensures |GrowwRows(cols, rows).holdings| + |GrowwRows(cols, rows).errors| <= |rows|
    decreases |rows|
  {
    if rows != [] {
      GrowwRowsValid(cols, rows[..|rows| - 1]);
      GrowwRowValid(cols, rows[|rows| - 1], |rows| - 1);
      AddValid(GrowwRows(cols, rows[..|rows| - 1]), GrowwRow(cols, rows[|rows| - 1], |rows| - 1), |rows|, "groww");
    }
  }

  /** The row loop keeps its holdings valid and its errors within the rows read so far. */
  lemma AddValid(p: Parsed, o: RowOutcome, n: nat, source: string)
    requires 1 <= n
    requires forall h :: h in p.holdings ==> h.quantity > 0.0 && h.avgPrice > 0.0 && h.source == source
    requires forall e :: e in p.errors ==> e.RowFailed? && 1 <= e.row <= n - 1
    requires |p.holdings| + |p.errors| <= n - 1
    requires o.Imported? ==> o.holding.quantity > 0.0 && o.holding.avgPrice > 0.0 && o.holding.source == source
    requires o.Rejected? ==> o.error == RowFailed(n)
    ensures forall h :: h in Add(p, o).holdings ==> h.quantity > 0.0 && h.avgPrice > 0.0 && h.source == source
    ensures forall e :: e in Add(p, o).errors ==> e.RowFailed? && 1 <= e.row <= n
    ensures |Add(p, o).holdings| + |Add(p, o).errors| <= n
  {
  }

  lemma GrowwRowValid(cols: seq<string>, row: seq<Cell>, idx: nat)
    ensures var o := GrowwRow(cols, row, idx);
      && (o.Imported? ==> o.holding.quantity > 0.0 && o.holding.avgPrice > 0.0 && o.holding.source == "groww")
      && (o.Rejected? ==> o.error == RowFailed(idx + 1))
  {
    GrowwRowCases(cols, row, idx);
    if GrowwRow(cols, row, idx).Imported? {
      GrowwHolding(cols, row, idx);
    }
  }

  /** With two columns normalised to "quantity", no Groww row becomes a holding: every non-empty row is a conversion error. */
  lemma {:induction false} GrowwSharedQuantity(cols: seq<string>, rows: seq<seq<Cell>>)
    requires Shared(cols, ColumnNamed(cols, "quantity"))
    ensures GrowwRows(cols, rows).holdings == []
    ensures forall e :: e in GrowwRows(cols, rows).errors ==> e.RowFailed?
    decreases |rows|
  {
    if rows != [] {
      GrowwSharedQuantity(cols, rows[..|rows| - 1]);
      GrowwRowCases(cols, rows[|rows| - 1], |rows| - 1);
    }
  }

  /** `parse_groww_holdings`: the row loop. */
  method ParseGroww(u: Upload) returns (holdings: seq<Holding>, errors: seq<ImportError>)
    ensures Parsed(holdings, errors) == GrowwOf(u)
  {
    var sheet := GrowwSheet(u);
    if sheet.Unreadable? {
      return [], [GrowwParseFailed];
    }
    var cols := GrowwColumns(sheet.columns);
    holdings, errors := [], [];
    var rows := sheet.rows;
    for i := 0 to |rows|
      invariant Parsed(holdings, errors) == GrowwRows(cols, rows[..i])
    {
      var o := GrowwRow(cols, rows[i], i);
      GrowwRowsStep(cols, rows, i);
      if o.Imported? {
        holdings := holdings + [o.holding];
      } else if o.Rejected? {
        errors := errors + [o.error];
      }
    }
    assert rows[..|rows|] == rows;
  }

  // ---------------------------------------------------------------------------
  // Detection
  // ---------------------------------------------------------------------------

  datatype Broker = Zerodha | Groww | Unknown

  datatype Detected = Detected(holdings: seq<Holding>, errors: seq<ImportError>, broker: Broker)

  /** `detect_broker_and_parse` */
  function DetectOf(u: Upload): Detected {
    var z := ZerodhaOf(u);
    if z.holdings != [] then Detected(z.holdings, z.errors, Zerodha)
    else
      var g := GrowwOf(u);
      if g.holdings != [] then Detected(g.holdings, g.errors, Groww)
      else Detected([], [UnknownFormat], Unknown)
  }

  /**
   * Zerodha wins whenever it yields a holding; Groww is used only when Zerodha
   * yields none and Groww some; otherwise nothing is imported and the one
   * error says the format was not recognised.
   */
  lemma DetectChoice(u: Upload)
    ensures DetectOf(u).broker == Zerodha <==> ZerodhaOf(u).holdings != []
    ensures DetectOf(u).broker == Groww <==> ZerodhaOf(u).holdings == [] && GrowwOf(u).holdings != []
    ensures DetectOf(u).broker == Zerodha ==> DetectOf(u).holdings == ZerodhaOf(u).holdings && DetectOf(u).errors == ZerodhaOf(u).errors
    ensures DetectOf(u).broker == Groww ==> DetectOf(u).holdings == GrowwOf(u).holdings && DetectOf(u).errors == GrowwOf(u).errors
    ensures DetectOf(u).holdings == [] <==> DetectOf(u).broker == Unknown
    ensures DetectOf(u).broker == Unknown ==> DetectOf(u).errors == [UnknownFormat]
  {
  }

  method DetectBrokerAndParse(u: Upload) returns (d: Detected)
    ensures d == DetectOf(u)
  {
    var holdings, errors := ParseZerodha(u);
    if holdings != [] {
      return Detected(holdings, errors, Zerodha);
    }
    holdings, errors := ParseGroww(u);
    if holdings != [] {
      return Detected(holdings, errors, Groww);
    }
    return Detected([], [UnknownFormat], Unknown);
  }
}
