/**
 * The notes collection: `Note` records, their dictionary and CSV forms, and
 * the list operations of the notes menu (create, edit, delete, import).
 */
module Notes {
  import opened Collection
  import opened Dicts
  import Strings

  datatype Note = Note(id: int, title: string, content: string, timestamp: string)

  function NoteId(n: Note): int { n.id }

  /**
   * The note constructor (personal_assistent.py:6-10): the timestamp is optional,
   * and a missing or empty one is replaced by the current time.
   */
  function NewNote(id: int, title: string, content: string, timestamp: Option<string>, now: string): (n: Note)
    ensures n.id == id && n.title == title && n.content == content
    ensures timestamp.Some? && timestamp.value != "" ==> n.timestamp == timestamp.value
    ensures timestamp.None? || timestamp.value == "" ==> n.timestamp == now
  {
    Note(id, title, content, Or(if timestamp.Some? then timestamp.value else "", now))
  }

  /** The field updates of `edit_note`: an empty entry keeps the field; the timestamp is always set to now. */
  function Edited(n: Note, title: string, content: string, now: string): Note
  {
    n.(title := Or(title, n.title), content := Or(content, n.content), timestamp := now)
  }

  /** An edit with both entries blank changes nothing but the timestamp, which becomes `now`. */
  lemma BlankEditStampsOnly(n: Note, now: string)
    ensures Edited(n, "", "", now) == n.(timestamp := now)
    ensures Edited(n, "", "", now).timestamp == now
  {
  }

  /** Each field is edited on its own: a non-empty entry replaces it, an empty one keeps it. */
  lemma EditFields(n: Note, title: string, content: string, now: string)
    ensures Edited(n, title, content, now).id == n.id
    ensures title != "" ==> Edited(n, title, content, now).title == title
    ensures title == "" ==> Edited(n, title, content, now).title == n.title
    ensures content != "" ==> Edited(n, title, content, now).content == content
    ensures content == "" ==> Edited(n, title, content, now).content == n.content
  {
  }

  /** The list after `edit_note` for id `id`: the first note with that id is edited in place. */
  function EditFirst(s: seq<Note>, id: int, title: string, content: string, now: string): (r: seq<Note>)
    ensures |r| == |s|
    ensures forall j :: 0 <= j < |s| ==> r[j].id == s[j].id
    ensures forall j :: 0 <= j < |s| && FirstIndex(s, NoteId, id) != Some(j) ==> r[j] == s[j]
    ensures !HasId(s, NoteId, id) ==> r == s
    ensures Find(r, NoteId, id) ==
              match Find(s, NoteId, id)
              case None => None
              case Some(n) => Some(Edited(n, title, content, now))
  {
    match FirstIndex(s, NoteId, id)
    case None => s
    case Some(i) =>
      var r := s[i := Edited(s[i], title, content, now)];
      FirstIndexSameKeys(s, r, NoteId, id);
      r
  }

  // ---- dictionary form (to_dict, and Note(**d) when loading) ----

  /** The keys `to_dict` writes. */
  const DictKeys: set<string> := {"id", "title", "content", "timestamp"}

  /** The id parameter of `Note.__init__` as the source names it. */
  const SourceIdParam := "note_id"

  function ToDict(n: Note): (d: Dict)
    ensures d.Keys == DictKeys
  {
    map["id" := Int(n.id), "title" := Str(n.title), "content" := Str(n.content), "timestamp" := Str(n.timestamp)]
  }

  /**
   * Building a note from a loaded dictionary by keyword arguments
   * (personal_assistent.py:75), for a constructor whose id parameter is called
   * `idParam`: Python's keyword binding, then the constructor body. The source's
   * constructor calls it `note_id`; a dictionary from `to_dict` says `id`.
   * A value of a kind the field cannot hold is reported as `WrongType`, where
   * Python would store it unchecked.
   */
  function Rebuild(d: Dict, idParam: string, now: string): Result<Note>
  {
    match Bind(d, {idParam, "title", "content", "timestamp"}, {idParam, "title", "content"})
    case Err(e) => Err(e)
    case Ok(_) =>
      var ts := Optional(d, "timestamp");
      if d[idParam].Int? && d["title"].Str? && d["content"].Str? && (ts.Str? || ts.Null?) then
        Ok(NewNote(d[idParam].i, d["title"].s, d["content"].s, if ts.Str? then Some(ts.s) else None, now))
      else
        Err(WrongType)
  }

  /** As written, rebuilding a saved note raises: the key `id` names no parameter of the constructor (personal_assistent.py:6). */
  lemma RebuildAsWrittenFails(n: Note, now: string)
    ensures Rebuild(ToDict(n), SourceIdParam, now) == Err(UnexpectedKeyword)
  {
    assert "id" in ToDict(n).Keys;
  }

  /** With the id parameter named after the key, rebuilding a saved note gives it back, unless its timestamp was empty. */
  lemma RebuildRoundTrip(n: Note, now: string)
    ensures n.timestamp != "" ==> Rebuild(ToDict(n), "id", now) == Ok(n)
    ensures n.timestamp == "" ==> Rebuild(ToDict(n), "id", now) == Ok(n.(timestamp := now))
  {
  }

  /** What `save_notes` writes (personal_assistent.py:81): one dictionary per note, in order. */
  function Save(s: seq<Note>): (ds: seq<Dict>)
    ensures |ds| == |s|
    ensures forall k :: 0 <= k < |s| ==> ds[k] == ToDict(s[k])
    decreases |s|
  {
    if s == [] then [] else [ToDict(s[0])] + Save(s[1..])
  }

  /** `Rebuild` with the id parameter's name fixed, as a function value for `LoadAll`. */
  function Rebuilder(idParam: string, now: string): Dict -> Result<Note>
  {
    d => Rebuild(d, idParam, now)
  }

  /** What `load_notes` returns (personal_assistent.py:75): one note per dictionary; the first failing dictionary aborts it. */
  function Load(ds: seq<Dict>, idParam: string, now: string): (r: Result<seq<Note>>)
    ensures r.Ok? ==> |r.value| == |ds| && forall k :: 0 <= k < |ds| ==> Rebuild(ds[k], idParam, now) == Ok(r.value[k])
    ensures r.Ok? <==> forall k :: 0 <= k < |ds| ==> Rebuild(ds[k], idParam, now).Ok?
    ensures r.Err? ==>
              exists k :: 0 <= k < |ds| && Rebuild(ds[k], idParam, now) == Err(r.error) &&
                forall j :: 0 <= j < k ==> Rebuild(ds[j], idParam, now).Ok?
  {
    LoadAll(ds, Rebuilder(idParam, now))
  }

  /** As written, loading what was saved fails for every non-empty collection. */
  lemma {:induction false} LoadAsWrittenFails(s: seq<Note>, now: string)
    requires |s| > 0
    ensures Load(Save(s), SourceIdParam, now) == Err(UnexpectedKeyword)
  {
    RebuildAsWrittenFails(s[0], now);
  }

  /** With the parameter named `id`, loading what was saved gives the collection back when no timestamp is empty. */
  lemma {:induction false} LoadSaveRoundTrip(s: seq<Note>, now: string)
    requires forall k :: 0 <= k < |s| ==> s[k].timestamp != ""
    ensures Load(Save(s), "id", now) == Ok(s)
    decreases |s|
  {
    if s != [] {
      assert Save(s)[0] == ToDict(s[0]) && Save(s)[1..] == Save(s[1..]);
      RebuildRoundTrip(s[0], now);
      LoadSaveRoundTrip(s[1..], now);
      assert [s[0]] + s[1..] == s;
    }
  }

  // ---- CSV form ----

  /** The export header, in column order. */
  const CsvFields: seq<string> := ["id", "title", "content", "timestamp"]

  /** The columns the import reads from each row. */
  const CsvColumns: set<string> := {"title", "content", "timestamp"}

  /** The note the import loop builds from a row (personal_assistent.py:134): the assigned id and the row's title, content and timestamp cells. */
  function FromCsvRow(row: CsvRow, id: int, now: string): (n: Note)
    requires CsvColumns <= row.Keys
    ensures n.id == id && n.title == row["title"] && n.content == row["content"]
    ensures n.timestamp == Or(row["timestamp"], now)
  {
    NewNote(id, row["title"], row["content"], Some(row["timestamp"]), now)
  }

  /** The row the CSV writer produces for a note's dictionary (personal_assistent.py:147). */
  function ToCsvRow(n: Note): (row: CsvRow)
    ensures row.Keys == set f | f in CsvFields
  {
    map["id" := Strings.IntToString(n.id), "title" := n.title, "content" := n.content, "timestamp" := n.timestamp]
  }

  /** The rows `export_notes_to_csv` writes after the header. */
  function ExportRows(s: seq<Note>): (rows: seq<CsvRow>)
    ensures |rows| == |s|
    ensures forall k :: 0 <= k < |s| ==> rows[k] == ToCsvRow(s[k])
    decreases |s|
  {
    if s == [] then [] else [ToCsvRow(s[0])] + ExportRows(s[1..])
  }

  /** Importing an exported note gives it back under the id the import assigns, unless its timestamp was empty. */
  lemma ImportOfExport(n: Note, id: int, now: string)
    requires n.timestamp != ""
    ensures CsvColumns <= ToCsvRow(n).Keys
    ensures FromCsvRow(ToCsvRow(n), id, now) == n.(id := id)
  {
  }

  /** Every exported row carries the columns the import reads, so importing an export never stops early. */
  lemma ExportRowsImportable(s: seq<Note>)
    ensures LeadingRows(ExportRows(s), CsvColumns) == |s|
  {
    var rows := ExportRows(s);
    forall k | 0 <= k < |rows|
      ensures CsvColumns <= rows[k].Keys
    {
      assert rows[k] == ToCsvRow(s[k]);
    }
    LeadingRowsAll(rows, CsvColumns);
  }

  // ---- the in-memory collection ----

  /** The list of notes the notes menu works on. */
  class NoteList {
    var items: seq<Note>

    /** The list `load_notes` returns: the stored notes, or none when there is no file. */
    constructor (loaded: seq<Note>)
      ensures items == loaded
    {
      items := loaded;
    }

    /** `create_note`: a note with id `len + 1`, the given title and content, and the current time, is appended. */
    method Create(title: string, content: string, now: string) returns (note: Note)
      modifies this
      ensures note.id == |old(items)| + 1 && note.title == title && note.content == content
      ensures note.timestamp == now
      ensures items == old(items) + [note]
      ensures DenseIds(old(items), NoteId) ==> DenseIds(items, NoteId)
    {
      note := NewNote(|items| + 1, title, content, None, now);
      items := items + [note];
    }

    /** `edit_note`: the first note with the id gets the new title and content where given, and the time `now`. */
    method Edit(id: int, title: string, content: string, now: string) returns (found: bool)
      modifies this
      ensures found <==> HasId(old(items), NoteId, id)
      ensures items == EditFirst(old(items), id, title, content, now)
    {
      match FirstIndex(items, NoteId, id) {
        case None =>
          found := false;
        case Some(i) =>
          var note := items[i];
          note := note.(title := Or(title, note.title));
          note := note.(content := Or(content, note.content));
          note := note.(timestamp := now);
          items := items[i := note];
          found := true;
      }
    }

    /** `delete_note`: the first note with the id is removed; an absent id changes nothing. */
    method Delete(id: int) returns (removed: bool)
      modifies this
      ensures removed <==> HasId(old(items), NoteId, id)
      ensures items == Deleted(old(items), NoteId, id)
    {
      match FirstIndex(items, NoteId, id) {
        case None =>
          removed := false;
        case Some(i) =>
          items := items[..i] + items[i + 1..];
          removed := true;
      }
    }

    /**
     * The row loop of `import_notes_from_csv`: each row becomes a note with id
     * `len + 1` at the time it is appended. A row without one of the columns
     * raises a KeyError, which ends the import; the rows before it stay appended.
     */
    method ImportCsv(rows: seq<CsvRow>, now: string) returns (ok: bool)
      modifies this
      ensures ok <==> LeadingRows(rows, CsvColumns) == |rows|
      ensures |items| == |old(items)| + LeadingRows(rows, CsvColumns)
      ensures items[..|old(items)|] == old(items)
      ensures forall k :: |old(items)| <= k < |items| ==>
                items[k] == FromCsvRow(rows[k - |old(items)|], k + 1, now)
      ensures forall k :: |old(items)| <= k < |items| ==> items[k].id == k + 1
      ensures DenseIds(old(items), NoteId) ==> DenseIds(items, NoteId)
    {
      ghost var n := LeadingRows(rows, CsvColumns);
      ghost var m := |items|;
      var i := 0;
      while i < |rows|
        invariant 0 <= i <= n
        invariant |items| == m + i
        invariant items[..m] == old(items)
        invariant forall k :: m <= k < |items| ==> items[k] == FromCsvRow(rows[k - m], k + 1, now)
      {
        var row := rows[i];
        if !(CsvColumns <= row.Keys) {
          return false;
        }
        var note := FromCsvRow(row, |items| + 1, now);
        items := items + [note];
        i := i + 1;
      }
      ok := true;
    }
  }
}
