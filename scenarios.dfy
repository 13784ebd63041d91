/**
 * Client code: sessions that drive the collections through their menus'
 * operations, checked against the operations' contracts alone.
 */
module Scenarios {
  import opened Collection
  import Notes
  import Tasks
  import Contacts
  import Finance
  import Strings

  /** Starting from no tasks: add one (it gets id 1), mark it done, delete it, and no tasks are left. */
  method TaskLifecycle()
  {
    var tasks := new Tasks.TaskList([]);
    var task := tasks.Add("Buy milk", "desc", "High", "01-01-2025");
    assert task.id == 1 && !task.done;
    var found := tasks.MarkDone(1);
    assert found && tasks.items == [task.(done := true)];
    var removed := tasks.Delete(1);
    assert removed && tasks.items == [];
  }

  /**
   * Ids are `len + 1`: after three notes and the deletion of the first, a new
   * note gets id 3 again, and looking up id 3 finds the older note.
   */
  method DuplicateNoteIds(now: string)
  {
    var notes := new Notes.NoteList([]);
    var a := notes.Create("a", "", now);
    var b := notes.Create("b", "", now);
    var c := notes.Create("c", "", now);
    assert notes.items == [a, b, c] && c.id == 3;
    assert FirstIndex([a, b, c], Notes.NoteId, 1) == Some(0);
    var removed := notes.Delete(1);
    assert [a, b, c][..0] + [a, b, c][1..] == [b, c];
    assert removed && notes.items == [b, c];
    var d := notes.Create("d", "", now);
    assert d.id == 3 && notes.items == [b, c, d];
    OlderNoteFound(b, c, d);
    assert Find(notes.items, Notes.NoteId, 3) == Some(c);
  }

  /** With ids 2, 3, 3, the lookup of id 3 finds the second note, not the third. */
  lemma OlderNoteFound(b: Notes.Note, c: Notes.Note, d: Notes.Note)
    requires b.id == 2 && c.id == 3 && d.id == 3
    ensures Find([b, c, d], Notes.NoteId, 3) == Some(c)
  {
    assert Notes.NoteId([b, c][1]) == 3 && Notes.NoteId(b) == 2;
    assert [b, c][1..] == [c];
    assert FirstIndex([b, c], Notes.NoteId, 3) == Some(1);
    FindAfterAppend([b, c], Notes.NoteId, d);
    assert [b, c] + [d] == [b, c, d];
  }

  /** Exporting three contacts and importing the rows into an empty list gives the same fields under ids 1, 2, 3. */
  method ContactsExportImport(a: Contacts.Contact, b: Contacts.Contact, c: Contacts.Contact)
  {
    var rows := Contacts.ExportRows([a, b, c]);
    Contacts.ExportRowsImportable([a, b, c]);
    Contacts.ImportOfExport(a, 1);
    Contacts.ImportOfExport(b, 2);
    Contacts.ImportOfExport(c, 3);
    var contacts := new Contacts.ContactList([]);
    var ok := contacts.ImportCsv(rows);
    assert ok && |contacts.items| == 3;
    assert rows[0] == Contacts.ToCsvRow(a) && rows[1] == Contacts.ToCsvRow(b) && rows[2] == Contacts.ToCsvRow(c);
    assert contacts.items[0] == a.(id := 1);
    assert contacts.items[1] == b.(id := 2);
    assert contacts.items[2] == c.(id := 3);
    assert contacts.items == [a.(id := 1), b.(id := 2), c.(id := 3)];
  }

  /** An income of 100 on 1 January and an expense of 40 on 15 June: the report for 2025 shows 100, -40 and 60. */
  lemma FinanceYearReport()
    ensures Finance.GenerateReport(
              [Finance.FinanceRecord(1, 100.0, "salary", "01-01-2025", ""),
               Finance.FinanceRecord(2, -40.0, "food", "15-06-2025", "")],
              "01-01-2025", "31-12-2025")
            == Finance.Report(100.0, -40.0, 60.0)
  {
    var r1 := Finance.FinanceRecord(1, 100.0, "salary", "01-01-2025", "");
    var r2 := Finance.FinanceRecord(2, -40.0, "food", "15-06-2025", "");
    BothIn2025(r1, r2);
    IncomeAndExpenseOfTwo(r1, r2);
  }

  /** Dates 01-01-2025 and 15-06-2025 both pass the filter for 2025. */
  lemma BothIn2025(r1: Finance.FinanceRecord, r2: Finance.FinanceRecord)
    requires r1.date == "01-01-2025" && r2.date == "15-06-2025"
    ensures Finance.Filtered([r1, r2], "01-01-2025", "31-12-2025") == [r1, r2]
  {
    Strings.LexLeReflexive("01-01-2025");
    assert Finance.InPeriod(r1, "01-01-2025", "31-12-2025");
    assert Finance.InPeriod(r2, "01-01-2025", "31-12-2025");
    Finance.FilteredAllIn([r1, r2], "01-01-2025", "31-12-2025");
  }

  /** The sums over one income followed by one expense. */
  lemma IncomeAndExpenseOfTwo(r1: Finance.FinanceRecord, r2: Finance.FinanceRecord)
    requires r1.amount > 0.0 && r2.amount < 0.0
    ensures Finance.Income([r1, r2]) == r1.amount && Finance.Expense([r1, r2]) == r2.amount
  {
    assert [r1, r2][1..] == [r2] && [r2][1..] == [];
    assert Finance.Income([r2]) == 0.0 + Finance.Income([]);
    assert Finance.Expense([r2]) == r2.amount + Finance.Expense([]);
  }
}
