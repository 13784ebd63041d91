/**
 * The finance collection: `FinanceRecord` entries, their dictionary and CSV
 * forms, the period report, and the list operations of the finance menu
 * (add, import). Amounts are exact reals in place of Python floats.
 */
module Finance {
  import opened Collection
  import opened Dicts
  import Strings

  /** A positive amount is income, a negative one an expense. */
  datatype FinanceRecord = FinanceRecord(id: int, amount: real, category: string, date: string, description: string)

  function RecordId(r: FinanceRecord): int { r.id }

  // ---- the report ----

  /** The filter of `generate_finance_report` (personal_assistent.py:434): the date lies between the start and the end date, under Python's string order. */
  predicate InPeriod(r: FinanceRecord, start: string, end: string)
  {
    Strings.LexLe(start, r.date) && Strings.LexLe(r.date, end)
  }

  /** The period test as a function value, for `Select`. */
  function PeriodTest(start: string, end: string): FinanceRecord -> bool
  {
    r => InPeriod(r, start, end)
  }

  /** The records of the report period (personal_assistent.py:434), in collection order. */
  function Filtered(s: seq<FinanceRecord>, start: string, end: string): (r: seq<FinanceRecord>)
    ensures |r| <= |s|
    ensures forall x :: x in r <==> x in s && InPeriod(x, start, end)
  {
    Select(s, PeriodTest(start, end))
  }

  /** The total income (personal_assistent.py:435): the sum of the positive amounts. */
  function Income(s: seq<FinanceRecord>): (total: real)
    ensures total >= 0.0
    decreases |s|
  {
    if s == [] then 0.0
    else (if s[0].amount > 0.0 then s[0].amount else 0.0) + Income(s[1..])
  }

  /** The total expense (personal_assistent.py:436): the sum of the negative amounts. */
  function Expense(s: seq<FinanceRecord>): (total: real)
    ensures total <= 0.0
    decreases |s|
  {
    if s == [] then 0.0
    else (if s[0].amount < 0.0 then s[0].amount else 0.0) + Expense(s[1..])
  }

  /** The sum of all amounts. */
  function Total(s: seq<FinanceRecord>): real
    decreases |s|
  {
    if s == [] then 0.0 else s[0].amount + Total(s[1..])
  }

  /** Income and expense together account for every amount: zero amounts count in neither. */
  lemma {:induction false} IncomePlusExpense(s: seq<FinanceRecord>)
    ensures Income(s) + Expense(s) == Total(s)
    decreases |s|
  {
    if s != [] { IncomePlusExpense(s[1..]); }
  }

  /** Income is at least every positive amount in the collection, and expense at most every negative one. */
  lemma {:induction false} IncomeBoundsEach(s: seq<FinanceRecord>, k: nat)
    requires k < |s|
    ensures s[k].amount > 0.0 ==> Income(s) >= s[k].amount
    ensures s[k].amount < 0.0 ==> Expense(s) <= s[k].amount
    decreases |s|
  {
    if k > 0 { IncomeBoundsEach(s[1..], k - 1); }
  }

  /** Filtering a concatenation filters each part in turn: the filter keeps collection order. */
  lemma FilteredAppend(a: seq<FinanceRecord>, b: seq<FinanceRecord>, start: string, end: string)
    ensures Filtered(a + b, start, end) == Filtered(a, start, end) + Filtered(b, start, end)
  {
    SelectAppend(a, b, PeriodTest(start, end));
  }

  /** A collection whose every record lies in the period passes the filter unchanged. */
  lemma FilteredAllIn(s: seq<FinanceRecord>, start: string, end: string)
    requires forall k :: 0 <= k < |s| ==> InPeriod(s[k], start, end)
    ensures Filtered(s, start, end) == s
  {
    SelectAll(s, PeriodTest(start, end));
  }

  datatype Report = Report(income: real, expense: real, balance: real)

  /** The figures `generate_finance_report` prints for the period from `start` to `end`. */
  function GenerateReport(s: seq<FinanceRecord>, start: string, end: string): (r: Report)
    ensures r.income == Income(Filtered(s, start, end)) && r.expense == Expense(Filtered(s, start, end))
    ensures r.income >= 0.0 && r.expense <= 0.0
    ensures r.balance == r.income + r.expense
    ensures r.balance == Total(Filtered(s, start, end))
  {
    var f := Filtered(s, start, end);
    IncomePlusExpense(f);
    Report(Income(f), Expense(f), Income(f) + Expense(f))
  }

  /** A record dated outside the period does not change the report. */
  lemma OutsidePeriodIgnored(s: seq<FinanceRecord>, x: FinanceRecord, start: string, end: string)
    requires !InPeriod(x, start, end)
    ensures GenerateReport(s + [x], start, end) == GenerateReport(s, start, end)
  {
    FilteredAppend(s, [x], start, end);
    assert Filtered([x], start, end) == [];
    assert Filtered(s, start, end) + [] == Filtered(s, start, end);
  }

  /**
   * The period filter compares the `DD-MM-YYYY` strings character by
   * character, not as dates: a record from June 2024 falls inside a report
   * for the year 2025, and one from 2 January 2025 inside a report for February 2025.
   */
  lemma LexicographicPeriod()
    ensures InPeriod(FinanceRecord(1, 10.0, "", "15-06-2024", ""), "01-01-2025", "31-12-2025")
    ensures InPeriod(FinanceRecord(1, 10.0, "", "02-01-2025", ""), "01-02-2025", "28-02-2025")
  {
    assert Strings.LexLe("01-01-2025", "15-06-2024");
    assert Strings.LexLe("15-06-2024", "31-12-2025");
    assert Strings.LexLe("01-02-2025", "02-01-2025");
    assert Strings.LexLe("02-01-2025", "28-02-2025");
  }

  // ---- dictionary form (to_dict, and FinanceRecord(**d) when loading) ----

  /** The keys `to_dict` writes. */
  const DictKeys: set<string> := {"id", "amount", "category", "date", "description"}

  /** The id parameter of `FinanceRecord.__init__` as the source names it. */
  const SourceIdParam := "record_id"

  function ToDict(r: FinanceRecord): (d: Dict)
    ensures d.Keys == DictKeys
  {
    map["id" := Int(r.id), "amount" := Num(r.amount), "category" := Str(r.category),
        "date" := Str(r.date), "description" := Str(r.description)]
  }

  /** Building a record from a loaded dictionary by keyword arguments (personal_assistent.py:409), for a constructor whose id parameter is called `idParam`; every parameter is required, and a value of a kind the field cannot hold is reported as `WrongType`, where Python would store it unchecked. */
  function Rebuild(d: Dict, idParam: string): Result<FinanceRecord>
  {
    match Bind(d, {idParam, "amount", "category", "date", "description"}, {idParam, "amount", "category", "date", "description"})
    case Err(e) => Err(e)
    case Ok(_) =>
      var amount := d["amount"];
      if d[idParam].Int? && (amount.Num? || amount.Int?) && d["category"].Str? && d["date"].Str? && d["description"].Str? then
        Ok(FinanceRecord(d[idParam].i, if amount.Num? then amount.r else amount.i as real,
                         d["category"].s, d["date"].s, d["description"].s))
      else
        Err(WrongType)
  }

  /** As written, rebuilding a saved record raises: the key `id` names no parameter of the constructor (personal_assistent.py:55). */
  lemma RebuildAsWrittenFails(r: FinanceRecord)
    ensures Rebuild(ToDict(r), SourceIdParam) == Err(UnexpectedKeyword)
  {
    assert "id" in ToDict(r).Keys;
  }

  /** With the id parameter named after the key, rebuilding a saved record gives it back. */
  lemma RebuildRoundTrip(r: FinanceRecord)
    ensures Rebuild(ToDict(r), "id") == Ok(r)
  {
  }

  /** What `save_finance_records` writes (personal_assistent.py:415): one dictionary per record, in order. */
  function Save(s: seq<FinanceRecord>): (ds: seq<Dict>)
    ensures |ds| == |s|
    ensures forall k :: 0 <= k < |s| ==> ds[k] == ToDict(s[k])
    decreases |s|
  {
    if s == [] then [] else [ToDict(s[0])] + Save(s[1..])
  }

  /** `Rebuild` with the id parameter's name fixed, as a function value for `LoadAll`. */
  function Rebuilder(idParam: string): Dict -> Result<FinanceRecord>
  {
    d => Rebuild(d, idParam)
  }

  /** What `load_finance_records` returns (personal_assistent.py:409): one record per dictionary; the first failing dictionary aborts it. */
  function Load(ds: seq<Dict>, idParam: string): (r: Result<seq<FinanceRecord>>)
    ensures r.Ok? ==> |r.value| == |ds| && forall k :: 0 <= k < |ds| ==> Rebuild(ds[k], idParam) == Ok(r.value[k])
    ensures r.Ok? <==> forall k :: 0 <= k < |ds| ==> Rebuild(ds[k], idParam).Ok?
    ensures r.Err? ==>
              exists k :: 0 <= k < |ds| && Rebuild(ds[k], idParam) == Err(r.error) &&
                forall j :: 0 <= j < k ==> Rebuild(ds[j], idParam).Ok?
  {
    LoadAll(ds, Rebuilder(idParam))
  }

  /** As written, loading what was saved fails for every non-empty collection. */
  lemma {:induction false} LoadAsWrittenFails(s: seq<FinanceRecord>)
    requires |s| > 0
    ensures Load(Save(s), SourceIdParam) == Err(UnexpectedKeyword)
  {
    RebuildAsWrittenFails(s[0]);
  }

  /** With the parameter named `id`, loading what was saved gives the collection back. */
  lemma {:induction false} LoadSaveRoundTrip(s: seq<FinanceRecord>)
    ensures Load(Save(s), "id") == Ok(s)
    decreases |s|
  {
    if s != [] {
      assert Save(s)[0] == ToDict(s[0]) && Save(s)[1..] == Save(s[1..]);
      RebuildRoundTrip(s[0]);
      LoadSaveRoundTrip(s[1..]);
      assert [s[0]] + s[1..] == s;
    }
  }

  // ---- CSV form ----

  /** The export header, in column order. */
  const CsvFields: seq<string> := ["id", "amount", "category", "date", "description"]

  /** The columns the import reads from each row. */
  const CsvColumns: set<string> := {"amount", "category", "date", "description"}

  /**
   * The record the import loop builds from a row (personal_assistent.py:448): the
   * assigned id, the parsed amount cell and the other cells; `parseAmount` stands for `float`.
   */
  function FromCsvRow(row: CsvRow, id: int, parseAmount: string -> real): (r: FinanceRecord)
    requires CsvColumns <= row.Keys
    ensures r.id == id && r.amount == parseAmount(row["amount"])
    ensures r.category == row["category"] && r.date == row["date"] && r.description == row["description"]
  {
    FinanceRecord(id, parseAmount(row["amount"]), row["category"], row["date"], row["description"])
  }

  /** The row the CSV writer produces for a record's dictionary (personal_assistent.py:461); `showAmount` stands for `str` on a float. */
  function ToCsvRow(r: FinanceRecord, showAmount: real -> string): (row: CsvRow)
    ensures row.Keys == set f | f in CsvFields
  {
    map["id" := Strings.IntToString(r.id), "amount" := showAmount(r.amount), "category" := r.category,
        "date" := r.date, "description" := r.description]
  }

  /** The rows `export_finance_records_to_csv` writes after the header. */
  function ExportRows(s: seq<FinanceRecord>, showAmount: real -> string): (rows: seq<CsvRow>)
    ensures |rows| == |s|
    ensures forall k :: 0 <= k < |s| ==> rows[k] == ToCsvRow(s[k], showAmount)
    decreases |s|
  {
    if s == [] then [] else [ToCsvRow(s[0], showAmount)] + ExportRows(s[1..], showAmount)
  }

  /** Importing an exported record gives it back under the id the import assigns, when reading back the printed amount gives the amount. */
  lemma ImportOfExport(r: FinanceRecord, id: int, parseAmount: string -> real, showAmount: real -> string)
    requires parseAmount(showAmount(r.amount)) == r.amount
    ensures CsvColumns <= ToCsvRow(r, showAmount).Keys
    ensures FromCsvRow(ToCsvRow(r, showAmount), id, parseAmount) == r.(id := id)
  {
  }

  /** Every exported row carries the columns the import reads, so importing an export never stops early. */
  lemma ExportRowsImportable(s: seq<FinanceRecord>, showAmount: real -> string)
    ensures LeadingRows(ExportRows(s, showAmount), CsvColumns) == |s|
  {
    var rows := ExportRows(s, showAmount);
    forall k | 0 <= k < |rows|
      ensures CsvColumns <= rows[k].Keys
    {
      assert rows[k] == ToCsvRow(s[k], showAmount);
    }
    LeadingRowsAll(rows, CsvColumns);
  }

  // ---- the in-memory collection ----

  /** The list of finance records the finance menu works on. */
  class Ledger {
    var items: seq<FinanceRecord>

    /** The list `load_finance_records` returns: the stored records, or none when there is no file. */
    constructor (loaded: seq<FinanceRecord>)
      ensures items == loaded
    {
      items := loaded;
    }

    /** `add_finance_record`: a record with id `len + 1` and the entered fields is appended. */
    method Add(amount: real, category: string, date: string, description: string) returns (record: FinanceRecord)
      modifies this
      ensures record.id == |old(items)| + 1 && record.amount == amount
      ensures record.category == category && record.date == date && record.description == description
      ensures items == old(items) + [record]
      ensures DenseIds(old(items), RecordId) ==> DenseIds(items, RecordId)
    {
      record := FinanceRecord(|items| + 1, amount, category, date, description);
      items := items + [record];
    }

    /**
     * The row loop of `import_finance_records_from_csv`: each row becomes a
     * record with id `len + 1` at the time it is appended. A row without one of
     * the columns raises a KeyError, which ends the import; the rows before it stay appended.
     */
    method ImportCsv(rows: seq<CsvRow>, parseAmount: string -> real) returns (ok: bool)
      modifies this
      ensures ok <==> LeadingRows(rows, CsvColumns) == |rows|
      ensures |items| == |old(items)| + LeadingRows(rows, CsvColumns)
      ensures items[..|old(items)|] == old(items)
      ensures forall k :: |old(items)| <= k < |items| ==>
                items[k] == FromCsvRow(rows[k - |old(items)|], k + 1, parseAmount)
      ensures forall k :: |old(items)| <= k < |items| ==> items[k].id == k + 1
      ensures DenseIds(old(items), RecordId) ==> DenseIds(items, RecordId)
    {
      ghost var n := LeadingRows(rows, CsvColumns);
      ghost var m := |items|;
      var i := 0;
      while i < |rows|
        invariant 0 <= i <= n
        invariant |items| == m + i
        invariant items[..m] == old(items)
        invariant forall k :: m <= k < |items| ==> items[k] == FromCsvRow(rows[k - m], k + 1, parseAmount)
      {
        var row := rows[i];
        if !(CsvColumns <= row.Keys) {
          return false;
        }
        var record := FromCsvRow(row, |items| + 1, parseAmount);
        items := items + [record];
        i := i + 1;
      }
      ok := true;
    }
  }
}
