# Personal assistant record collections, in Dafny

This project models the in-memory record collections of a personal-assistant
command-line tool (`personal_assistent.py`). The tool keeps four independent
lists, one each of notes, tasks, contacts and finance entries. Each entry is a
flat record with an integer id. The model covers the same operations on every
list:

- **Add.** The new record gets id `len + 1` and is appended.
- **Lookup.** The first record whose id matches.
- **Delete.** Removes the first match.
- **Edit.** An empty entry keeps a field's old value.
- **Import.** Rows from a CSV reader are appended, each under a freshly assigned id.

It also covers the rebuilding of records from the dictionaries `to_dict`
produces, and three per-list extras:

- marking a task done;
- searching contacts by substring of the name or the phone;
- the finance report, which filters entries by date string and sums the
  positive and the negative amounts.

Layout, one module per file:

- `collection.dfy` (`Collection`): the list logic shared by all four lists. It is
  generic in the record type. `key` projects a record onto its id: the
  first-match lookup, delete-first, unique and dense ids, the list comprehension
  with a condition (used by the contact search and the report filter), and the
  rows an import consumes.
- `strings.dfy` (`Strings`): Python's `in` on strings, `<=` on strings
  (lexicographic by code point) and `str` of an integer.
- `dicts.dfy` (`Dicts`): JSON values, the dictionaries `to_dict` builds,
  Python's keyword binding for `Cls(**d)`, and the load comprehension shared by
  the four lists.
- `notes.dfy`, `tasks.dfy`, `contacts.dfy`, `finance.dfy`: one module per
  record type. Each holds:
  - the record datatype and its field edits;
  - its dictionary form, with load and save as sequence functions;
  - its CSV row form;
  - a class (`NoteList`, `TaskList`, `ContactList`, `Ledger`) whose `items: seq`
    field is the Python list. Its methods change that field the way the
    source's functions change the list.
- `scenarios.dfy` (`Scenarios`): client sessions checked against the contracts.
  They cover the add/mark/delete task cycle, a duplicate id after a deletion,
  a contacts export-then-import, and a yearly finance report.

Time (`datetime.now()`) is a `now: string` parameter. Amounts are `real`.
Python's `float` parsing and printing are the parameters `parseAmount` and
`showAmount`. A CSV row is a `map<string, string>`.

Behaviour the model keeps as the code has it:

- **Ids are `len + 1`, not a counter.** Every add and import method keeps ids
  1..n when the list had them before (`DenseIds`), and
  `Collection.DenseIdsAreUnique` shows such ids are unique with the next
  `len + 1` id fresh. `Collection.DeleteThenAddCollides`: deleting any id but the
  last and then adding produces a duplicate id. Deleting the last id does not
  (`Collection.DeleteLastKeepsDense`). `Collection.FindAfterAppend`: after a
  collision a lookup of the new id returns the older record.
- **The report compares `DD-MM-YYYY` strings lexicographically.**
  `Finance.LexicographicPeriod` shows a June 2024 entry inside a 2025 report.
- **A note's empty timestamp is replaced.** `timestamp or now` replaces an empty
  timestamp when a note is rebuilt or imported, so the round trip restores a
  note only when its timestamp was non-empty.
- **Tasks get the entered priority, even an empty one.** The task constructor
  declares the default priority `'Средний'` ("Medium") (personal_assistent.py:21),
  but `add_task` always passes the entered priority (personal_assistent.py:202),
  so an empty entry gives an empty priority. The default is reached only by
  rebuilding a dictionary that lacks the key.
- **Loading a saved list is broken.** `save_notes` writes the `to_dict` output
  of every note (personal_assistent.py:81), which `load_notes` is meant to read
  back (personal_assistent.py:75), and likewise for the other three lists. The
  code cannot load any non-empty saved file; see Findings.

## Model

| member | source | states |
|---|---|---|
| `Collection.FirstIndex` | personal_assistent.py:97 | the index returned holds the id and no earlier record does; no index means no record has the id |
| `Collection.Find` | personal_assistent.py:97 | the lookup returns none exactly when no record has the id, otherwise the first record that has it |
| `Collection.FindUnique` | personal_assistent.py:212 | when ids are unique the lookup returns the one record carrying the id |
| `Collection.FindAfterAppend` | personal_assistent.py:86-88 | after an append the new id is always found, but it is the appended record only if no earlier record had that id |
| `Collection.DeletedLength` | personal_assistent.py:120-122 | a delete shortens the list by one exactly when some record has the id, and leaves it unchanged otherwise |
| `Collection.DeletedAt` | personal_assistent.py:237-239 | after a delete, records before the match stay in place, records after it move down one, and the length drops by one |
| `Collection.DeletedKeepsOthers` | personal_assistent.py:120-122 | every record whose id is not the deleted one is still in the list after the delete |
| `Collection.DeletedUnique` | personal_assistent.py:344-346 | on a list with unique ids, delete removes exactly the records with that id, keeps all others, and keeps ids unique |
| `Collection.Deleted` | personal_assistent.py:120-122 | delete-first; its meaning is stated by `DeletedLength`, `DeletedAt`, `DeletedKeepsOthers` and `DeletedUnique` |
| `Collection.Or` | personal_assistent.py:111-112 | Python's `entered or previous`; its meaning (an empty entry keeps the old value) is stated by the `EditFields` lemmas of the three record modules |
| `Collection.DenseIdsAreUnique` | personal_assistent.py:317 | ids 1..n are unique and the next `len + 1` id is fresh |
| `Collection.DenseAppend` | personal_assistent.py:86-88 | appending a record with id `len + 1` to a list with ids 1..n gives ids 1..n+1 |
| `Collection.DeleteThenAddCollides` | personal_assistent.py:201 | deleting any id k < n from a list with ids 1..n and then adding with id `len + 1` duplicates an id |
| `Collection.DeleteLastKeepsDense` | personal_assistent.py:120-122 | deleting id n from a list with ids 1..n leaves ids 1..n-1, so the next add is fresh again |
| `Collection.LeadingRows` | personal_assistent.py:132-134 | the import consumes exactly the rows before the first one that lacks a column it reads |
| `Collection.LeadingRowsAll` | personal_assistent.py:132-134 | when every row carries the columns, the import consumes all rows |
| `Collection.Select` | personal_assistent.py:434 | a list comprehension with a condition keeps exactly the records that pass it and never lengthens the list |
| `Collection.SelectAppend` | personal_assistent.py:324 | a list comprehension over a concatenation is the concatenation of the two comprehensions, so it keeps list order |
| `Collection.SelectAll` | personal_assistent.py:434 | when every record passes the condition, the comprehension gives the whole list |
| `Strings.Contains` | personal_assistent.py:324 | Python's `q in s`; its meaning is stated by `ContainsIsSubstring` and `EmptyIsEverywhere` |
| `Strings.ContainsIsSubstring` | personal_assistent.py:324 | Python's `q in s` scan is true exactly when `q` occurs in `s` at some position |
| `Strings.EmptyIsEverywhere` | personal_assistent.py:324 | the empty query is in every string |
| `Strings.LexLe` | personal_assistent.py:434 | Python's `<=` on strings; that it is a total order is stated by the four `LexLe` lemmas below |
| `Strings.LexLeReflexive` | personal_assistent.py:434 | string `<=` is reflexive |
| `Strings.LexLeTotal` | personal_assistent.py:434 | any two strings are comparable under string `<=` |
| `Strings.LexLeAntisymmetric` | personal_assistent.py:434 | two strings each `<=` the other are equal |
| `Strings.LexLeTransitive` | personal_assistent.py:434 | string `<=` is transitive, so the period filter is an interval of a total order |
| `Strings.IntToString` | personal_assistent.py:147 | `str(id)` is non-empty and starts with a minus sign exactly for negative ids |
| `Dicts.Bind` | personal_assistent.py:75 | keyword binding succeeds exactly when every key names a parameter and every required parameter is given |
| `Dicts.LoadAll` | personal_assistent.py:75 | the comprehension of every `load_*` function: it succeeds exactly when every dictionary rebuilds, yields the rebuilt records in order, and otherwise fails with the first failing dictionary's error |
| `Notes.NewNote` | personal_assistent.py:6-10 | a note keeps a non-empty timestamp it is given and takes `now` when the timestamp is missing or empty |
| `Notes.Edited` | personal_assistent.py:111-113 | one note's edit; its meaning is stated by `EditFields` and `BlankEditStampsOnly` |
| `Notes.BlankEditStampsOnly` | personal_assistent.py:111-113 | editing a note with both entries blank changes only its timestamp, which becomes `now` |
| `Notes.EditFields` | personal_assistent.py:111-112 | each note field is edited on its own; the id is kept |
| `Notes.EditFirst` | personal_assistent.py:105-114 | editing keeps length and all ids, changes only the first match, and a lookup afterwards sees the edited note |
| `Notes.ToDict` | personal_assistent.py:12-18 | `to_dict` writes exactly the keys id, title, content and timestamp |
| `Notes.RebuildAsWrittenFails` | personal_assistent.py:75 | as written, `Note(**note.to_dict())` fails with an unexpected keyword for every note |
| `Notes.RebuildRoundTrip` | personal_assistent.py:10 | with the parameter named `id`, rebuilding gives the note back, or the note stamped `now` when its timestamp was empty |
| `Notes.Rebuild` | personal_assistent.py:75 | `Note(**d)` with the id parameter's name as an argument; its meaning is stated by `RebuildAsWrittenFails` and `RebuildRoundTrip` |
| `Notes.Save` | personal_assistent.py:81 | saving writes one dictionary per note, in list order, each the note's own `to_dict` |
| `Notes.Load` | personal_assistent.py:75 | a load succeeds exactly when every dictionary rebuilds, and then yields, in order, the note each one rebuilds to; on failure the error is that of the first dictionary that fails |
| `Notes.LoadAsWrittenFails` | personal_assistent.py:71-77 | as written, loading what `save_notes` wrote fails for every non-empty list |
| `Notes.LoadSaveRoundTrip` | personal_assistent.py:79-81 | with the parameter named `id`, load after save gives the list back when no timestamp is empty |
| `Notes.FromCsvRow` | personal_assistent.py:134 | an imported note takes the assigned id, the row's title and content, and the row's timestamp or `now` if it is empty |
| `Notes.ToCsvRow` | personal_assistent.py:143-147 | an exported row has exactly the header's columns |
| `Notes.ImportOfExport` | personal_assistent.py:140-147 | importing an exported note gives it back under the newly assigned id when its timestamp is non-empty |
| `Notes.ExportRows` | personal_assistent.py:146-147 | export writes one row per note, in collection order, each the note's own row |
| `Notes.ExportRowsImportable` | personal_assistent.py:146-147 | every exported row carries the columns import reads, so importing an export consumes every row |
| `Notes.NoteList.constructor` | personal_assistent.py:151 | the session starts from the loaded list |
| `Notes.NoteList.Create` | personal_assistent.py:83-89 | appends exactly one note, with id `len + 1`, the entered title and content, and time `now`; ids 1..n before give ids 1..n+1 after |
| `Notes.NoteList.Edit` | personal_assistent.py:105-116 | reports whether the id exists and leaves the list as `EditFirst` describes |
| `Notes.NoteList.Delete` | personal_assistent.py:118-125 | reports whether the id exists and leaves the list as `Deleted` describes |
| `Notes.NoteList.ImportCsv` | personal_assistent.py:127-138 | keeps the old notes and appends one per consumed row, in row order, with ids n+1..n+k; succeeds exactly when every row was consumed; ids 1..n before give ids 1..n+k after |
| `Tasks.Edited` | personal_assistent.py:227-230 | one task's edit; its meaning is stated by `EditFields`, `EditBlankAndRepeat` and `EditKeepsDone` |
| `Tasks.EditFields` | personal_assistent.py:227-230 | each task field is edited on its own; id and `done` are kept |
| `Tasks.EditBlankAndRepeat` | personal_assistent.py:227-230 | an all-blank edit leaves the task unchanged, and repeating an edit is the same as doing it once |
| `Tasks.EditFirst` | personal_assistent.py:219-233 | editing keeps length and all ids, changes only the first match, and a lookup afterwards sees the edited task |
| `Tasks.MarkedDone` | personal_assistent.py:212-214 | marking done sets `done` on the first match only and keeps all ids; with an absent id the list is unchanged |
| `Tasks.MarkDoneIdempotent` | personal_assistent.py:210-217 | marking done twice is the same as marking once |
| `Tasks.EditKeepsDone` | personal_assistent.py:227-230 | a task marked done stays done after any later edit |
| `Tasks.ToDict` | personal_assistent.py:29-37 | `to_dict` writes exactly the six task keys |
| `Tasks.RebuildAsWrittenFails` | personal_assistent.py:188 | as written, `Task(**task.to_dict())` fails with an unexpected keyword for every task |
| `Tasks.RebuildRoundTrip` | personal_assistent.py:21-27 | with the parameter named `id`, rebuilding gives the task back |
| `Tasks.Rebuild` | personal_assistent.py:188 | `Task(**d)` with the id parameter's name as an argument; its meaning is stated by `RebuildAsWrittenFails` and `RebuildRoundTrip` |
| `Tasks.Save` | personal_assistent.py:194 | saving writes one dictionary per task, in list order, each the task's own `to_dict` |
| `Tasks.Load` | personal_assistent.py:188 | a load succeeds exactly when every dictionary rebuilds, and then yields, in order, the task each one rebuilds to; on failure the error is that of the first dictionary that fails |
| `Tasks.LoadAsWrittenFails` | personal_assistent.py:184-190 | as written, loading what `save_tasks` wrote fails for every non-empty list |
| `Tasks.LoadSaveRoundTrip` | personal_assistent.py:192-194 | with the parameter named `id`, load after save gives the list back |
| `Tasks.FromCsvRow` | personal_assistent.py:251 | an imported task takes the assigned id and the row's fields, and is done exactly when the `done` cell is `"True"` |
| `Tasks.ToCsvRow` | personal_assistent.py:260-264 | an exported row has exactly the header's columns |
| `Tasks.ImportOfExport` | personal_assistent.py:257-264 | importing an exported task gives it back, `done` included, under the new id; a missing due date comes back empty |
| `Tasks.ExportRows` | personal_assistent.py:263-264 | export writes one row per task, in collection order, each the task's own row |
| `Tasks.ExportRowsImportable` | personal_assistent.py:263-264 | every exported row carries the columns import reads, so importing an export consumes every row |
| `Tasks.TaskList.constructor` | personal_assistent.py:268 | the session starts from the loaded list |
| `Tasks.TaskList.Add` | personal_assistent.py:196-204 | appends exactly one task, with id `len + 1`, not done, with the entered fields; ids 1..n before give ids 1..n+1 after |
| `Tasks.TaskList.MarkDone` | personal_assistent.py:210-217 | reports whether the id exists and leaves the list as `MarkedDone` describes |
| `Tasks.TaskList.Edit` | personal_assistent.py:219-233 | reports whether the id exists and leaves the list as `EditFirst` describes |
| `Tasks.TaskList.Delete` | personal_assistent.py:235-242 | reports whether the id exists and leaves the list as `Deleted` describes |
| `Tasks.TaskList.ImportCsv` | personal_assistent.py:244-255 | keeps the old tasks and appends one per consumed row, in row order, with ids n+1..n+k; ids 1..n before give ids 1..n+k after |
| `Contacts.Matches` | personal_assistent.py:324 | the search condition; `MatchesIsSubstring` states that it holds exactly when the query occurs in the name or the phone |
| `Contacts.Search` | personal_assistent.py:324 | the result holds exactly the contacts whose name or phone contains the query |
| `Contacts.MatchesIsSubstring` | personal_assistent.py:324 | a contact matches exactly when the query occurs in its name or its phone |
| `Contacts.SearchAppend` | personal_assistent.py:322-326 | search distributes over concatenation, so results are in collection order |
| `Contacts.SearchEmptyQuery` | personal_assistent.py:324 | the empty query returns the whole collection |
| `Contacts.Edited` | personal_assistent.py:335-337 | one contact's edit; its meaning is stated by `EditFields` and `EditBlankAndRepeat` |
| `Contacts.EditFields` | personal_assistent.py:335-337 | each contact field is edited on its own; the id is kept |
| `Contacts.EditBlankAndRepeat` | personal_assistent.py:335-337 | an all-blank edit leaves the contact unchanged, and repeating an edit is the same as doing it once |
| `Contacts.EditFirst` | personal_assistent.py:328-340 | editing keeps length and all ids, changes only the first match, and a lookup afterwards sees the edited contact |
| `Contacts.ToDict` | personal_assistent.py:46-52 | `to_dict` writes exactly the keys id, name, phone and email |
| `Contacts.RebuildAsWrittenFails` | personal_assistent.py:305 | as written, `Contact(**contact.to_dict())` fails with an unexpected keyword for every contact |
| `Contacts.RebuildRoundTrip` | personal_assistent.py:40-44 | with the parameter named `id`, rebuilding gives the contact back |
| `Contacts.Rebuild` | personal_assistent.py:305 | `Contact(**d)` with the id parameter's name as an argument; its meaning is stated by `RebuildAsWrittenFails` and `RebuildRoundTrip` |
| `Contacts.Save` | personal_assistent.py:311 | saving writes one dictionary per contact, in list order, each the contact's own `to_dict` |
| `Contacts.Load` | personal_assistent.py:305 | a load succeeds exactly when every dictionary rebuilds, and then yields, in order, the contact each one rebuilds to; on failure the error is that of the first dictionary that fails |
| `Contacts.LoadAsWrittenFails` | personal_assistent.py:301-307 | as written, loading what `save_contacts` wrote fails for every non-empty list |
| `Contacts.LoadSaveRoundTrip` | personal_assistent.py:309-311 | with the parameter named `id`, load after save gives the list back |
| `Contacts.FromCsvRow` | personal_assistent.py:358 | an imported contact takes the assigned id and the row's name, phone and email |
| `Contacts.ToCsvRow` | personal_assistent.py:367-371 | an exported row has exactly the header's columns |
| `Contacts.ImportOfExport` | personal_assistent.py:364-371 | importing an exported contact gives it back under the new id |
| `Contacts.ExportRows` | personal_assistent.py:370-371 | export writes one row per contact, in collection order, each the contact's own row |
| `Contacts.ExportRowsImportable` | personal_assistent.py:370-371 | every exported row carries the columns import reads, so importing an export consumes every row |
| `Contacts.ContactList.constructor` | personal_assistent.py:375 | the session starts from the loaded list |
| `Contacts.ContactList.Add` | personal_assistent.py:313-320 | appends exactly one contact, with id `len + 1` and the entered fields; ids 1..n before give ids 1..n+1 after |
| `Contacts.ContactList.Edit` | personal_assistent.py:328-340 | reports whether the id exists and leaves the list as `EditFirst` describes |
| `Contacts.ContactList.Delete` | personal_assistent.py:342-349 | reports whether the id exists and leaves the list as `Deleted` describes |
| `Contacts.ContactList.ImportCsv` | personal_assistent.py:351-362 | keeps the old contacts and appends one per consumed row, in row order, with ids n+1..n+k; ids 1..n before give ids 1..n+k after |
| `Finance.InPeriod` | personal_assistent.py:434 | the period test; `Filtered` and `LexicographicPeriod` state what it keeps |
| `Finance.Filtered` | personal_assistent.py:434 | the filter keeps exactly the records with `start <= date <= end` under string order |
| `Finance.Income` | personal_assistent.py:435 | the sum of the positive amounts is never negative |
| `Finance.Expense` | personal_assistent.py:436 | the sum of the negative amounts is never positive |
| `Finance.Total` | personal_assistent.py:439 | the sum of all amounts; `IncomePlusExpense` states that it is income plus expense, the printed balance |
| `Finance.IncomePlusExpense` | personal_assistent.py:435-436 | income plus expense is the sum of all amounts |
| `Finance.IncomeBoundsEach` | personal_assistent.py:435-436 | income is at least each positive amount and expense at most each negative one |
| `Finance.FilteredAppend` | personal_assistent.py:434 | filtering distributes over concatenation, so the filter keeps collection order |
| `Finance.GenerateReport` | personal_assistent.py:431-439 | income is the sum of the positive and expense the sum of the negative amounts of the records in the period; income is ≥ 0, expense ≤ 0, and the balance is their sum, which is the total of the records in the period |
| `Finance.FilteredAllIn` | personal_assistent.py:434 | a collection whose records all lie in the period passes the filter unchanged |
| `Finance.OutsidePeriodIgnored` | personal_assistent.py:434 | adding a record dated outside the period does not change the report |
| `Finance.LexicographicPeriod` | personal_assistent.py:434 | a June 2024 date lies inside the 2025 period, and 2 January 2025 inside February 2025, under string order |
| `Finance.ToDict` | personal_assistent.py:62-69 | `to_dict` writes exactly the five record keys |
| `Finance.RebuildAsWrittenFails` | personal_assistent.py:409 | as written, `FinanceRecord(**record.to_dict())` fails with an unexpected keyword for every record |
| `Finance.RebuildRoundTrip` | personal_assistent.py:55-60 | with the parameter named `id`, rebuilding gives the record back |
| `Finance.Rebuild` | personal_assistent.py:409 | `FinanceRecord(**d)` with the id parameter's name as an argument; its meaning is stated by `RebuildAsWrittenFails` and `RebuildRoundTrip` |
| `Finance.Save` | personal_assistent.py:415 | saving writes one dictionary per record, in list order, each the record's own `to_dict` |
| `Finance.Load` | personal_assistent.py:409 | a load succeeds exactly when every dictionary rebuilds, and then yields, in order, the record each one rebuilds to; on failure the error is that of the first dictionary that fails |
| `Finance.LoadAsWrittenFails` | personal_assistent.py:405-411 | as written, loading what `save_finance_records` wrote fails for every non-empty list |
| `Finance.LoadSaveRoundTrip` | personal_assistent.py:413-415 | with the parameter named `id`, load after save gives the list back |
| `Finance.FromCsvRow` | personal_assistent.py:448 | an imported record takes the assigned id, the parsed amount and the row's other fields |
| `Finance.ToCsvRow` | personal_assistent.py:457-461 | an exported row has exactly the header's columns |
| `Finance.ImportOfExport` | personal_assistent.py:454-461 | importing an exported record gives it back under the new id when parsing the printed amount gives the amount back |
| `Finance.ExportRows` | personal_assistent.py:460-461 | export writes one row per record, in collection order, each the record's own row |
| `Finance.ExportRowsImportable` | personal_assistent.py:460-461 | every exported row carries the columns import reads, so importing an export consumes every row |
| `Finance.Ledger.constructor` | personal_assistent.py:465 | the session starts from the loaded list |
| `Finance.Ledger.Add` | personal_assistent.py:417-425 | appends exactly one record, with id `len + 1` and the entered fields; ids 1..n before give ids 1..n+1 after |
| `Finance.Ledger.ImportCsv` | personal_assistent.py:441-452 | keeps the old records and appends one per consumed row, in row order, with ids n+1..n+k; ids 1..n before give ids 1..n+k after |
| `Scenarios.FinanceYearReport` | personal_assistent.py:431-439 | income 100 on 1 January and expense 40 on 15 June give the 2025 report 100, -40, 60 |

## Findings

| source | as written | input that shows it | evidently intended | confidence | as-written member | corrected member |
|---|---|---|---|---|---|---|
| personal_assistent.py:75 | `Note(**note)` on the dictionaries `save_notes` wrote; `to_dict` names the id `id`, the constructor's parameter is `note_id` | a `notes.json` holding one saved note: binding raises TypeError (unexpected keyword `id`) | loading gives back the saved notes | high (not executed) | `Notes.LoadAsWrittenFails` | `Notes.LoadSaveRoundTrip` |
| personal_assistent.py:188 | `Task(**task)`; `to_dict` writes `id`, the parameter is `task_id` | a `tasks.json` holding one saved task | loading gives back the saved tasks | high (not executed) | `Tasks.LoadAsWrittenFails` | `Tasks.LoadSaveRoundTrip` |
| personal_assistent.py:305 | `Contact(**contact)`; `to_dict` writes `id`, the parameter is `contact_id` | a `contacts.json` holding one saved contact | loading gives back the saved contacts | high (not executed) | `Contacts.LoadAsWrittenFails` | `Contacts.LoadSaveRoundTrip` |
| personal_assistent.py:409 | `FinanceRecord(**record)`; `to_dict` writes `id`, the parameter is `record_id` | a `finance.json` holding one saved record | loading gives back the saved records | high (not executed) | `Finance.LoadAsWrittenFails` | `Finance.LoadSaveRoundTrip` |

Each `Rebuild` function takes the name of the id parameter as an argument. It
is the source's name (`SourceIdParam`: `note_id`, `task_id`, ...) for the code
as written, and `id` for the corrected constructor. Nothing else differs
between the two. Both reject a value of a kind the field cannot hold
(`WrongType`), which Python would store unchecked; see Left out.

## Left out

- File I/O: opening, reading and writing the JSON and CSV files, and the
  `FileNotFoundError` handling. Load and save are modelled as sequence functions
  over dictionaries, and CSV import and export over already-parsed rows.
- Console interaction: `input`, `print`, the `view_*` listings (printing only;
  the lookup inside `view_note_details` is `Collection.Find`), the `manage_*`
  menu loops and `main`. Their only logic is "dispatch, then save".
- `calculator`: a wrapper over Python's `eval`, with nothing here to model.
- `datetime.now().strftime(...)`: the current time is an opaque `now` string
  parameter.
- `int(...)` on a typed id and `float(...)` on a typed amount: parse failures are
  outside the model. Ids are given as `int` and amounts as `real`.
- Finance.FromCsvRow: `float(row['amount'])` is the parameter `parseAmount`, so
  float syntax and rounding are not modelled.
- Finance.ToCsvRow: `str` of a float is the parameter `showAmount`. The export
  round trip is proved only under the hypothesis that parsing the printed
  amount gives the amount back.
- Finance.Income: Python float addition is rounded. The model sums exactly, so
  the order of summation does not matter here.
- Strings.IntToString: states only that `str(id)` is non-empty and where the sign
  is, not its decimal value. The import ignores the id column, so no proved
  property depends on it.
- Notes.Rebuild, Tasks.Rebuild, Contacts.Rebuild, Finance.Rebuild: with either
  id parameter name, a dictionary whose value has a kind the field cannot hold
  (for example `{"note_id": 1, "title": null, "content": "c"}`) gives
  `Err(WrongType)`, where Python's constructor would store the value unchecked.
  Records are typed here, so such a value has no record to go into.
- CSV short rows: the dictionary reader fills them with `None`. A cell is always
  a string here.
- Object identity: records are values, not objects. `list.remove` removes the
  object the lookup found, which is the first match, because no record object
  appears twice in a list. The model removes by that position.
- When a row lacks a column, the KeyError leaves the import and also skips the
  menu's save. The model ends the import with `ok = false` and the earlier rows
  appended, but it is not a model of what happens to the process afterwards.
