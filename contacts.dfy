/**
 * The contacts collection: `Contact` records, their dictionary and CSV forms,
 * the search, and the list operations of the contacts menu.
 */
module Contacts {
  import opened Collection
  import opened Dicts
  import Strings

  datatype Contact = Contact(id: int, name: string, phone: string, email: string)

  function ContactId(c: Contact): int { c.id }

  // ---- search ----

  /** The condition of `search_contact` (personal_assistent.py:324): the query occurs in the name or in the phone. */
  predicate Matches(c: Contact, query: string)
  {
    Strings.Contains(c.name, query) || Strings.Contains(c.phone, query)
  }

  /** The search condition as a function value, for `Select`. */
  function MatchTest(query: string): Contact -> bool
  {
    c => Matches(c, query)
  }

  /** The result of `search_contact` (personal_assistent.py:324): the matching contacts in collection order. */
  function Search(s: seq<Contact>, query: string): (r: seq<Contact>)
    ensures |r| <= |s|
    ensures forall c :: c in r <==> c in s && Matches(c, query)
  {
    Select(s, MatchTest(query))
  }

  /** A contact matches exactly when the query occurs in its name or in its phone (case-sensitive). */
  lemma MatchesIsSubstring(c: Contact, query: string)
    ensures Matches(c, query) <==> Strings.IsSubstring(query, c.name) || Strings.IsSubstring(query, c.phone)
  {
    Strings.ContainsIsSubstring(c.name, query);
    Strings.ContainsIsSubstring(c.phone, query);
  }

  /** Searching a concatenation searches each part in turn: the results keep collection order. */
  lemma SearchAppend(a: seq<Contact>, b: seq<Contact>, query: string)
    ensures Search(a + b, query) == Search(a, query) + Search(b, query)
  {
    SelectAppend(a, b, MatchTest(query));
  }

  /** The empty query matches everything, so it lists the whole collection. */
  lemma SearchEmptyQuery(s: seq<Contact>)
    ensures Search(s, "") == s
  {
    forall k | 0 <= k < |s|
      ensures Matches(s[k], "")
    {
      Strings.EmptyIsEverywhere(s[k].name);
    }
    SelectAll(s, MatchTest(""));
  }

  // ---- editing ----

  /** The field updates of `edit_contact`: each empty entry keeps its field. */
  function Edited(c: Contact, name: string, phone: string, email: string): Contact
  {
    c.(name := Or(name, c.name), phone := Or(phone, c.phone), email := Or(email, c.email))
  }

  /** Each field is edited on its own: a non-empty entry replaces it, an empty one keeps it. */
  lemma EditFields(c: Contact, name: string, phone: string, email: string)
    ensures Edited(c, name, phone, email).id == c.id
    ensures Edited(c, name, phone, email).name == if name == "" then c.name else name
    ensures Edited(c, name, phone, email).phone == if phone == "" then c.phone else phone
    ensures Edited(c, name, phone, email).email == if email == "" then c.email else email
  {
  }

  /** An edit with every entry blank leaves the contact as it was, and repeating an edit changes nothing more. */
  lemma EditBlankAndRepeat(c: Contact, name: string, phone: string, email: string)
    ensures Edited(c, "", "", "") == c
    ensures Edited(Edited(c, name, phone, email), name, phone, email) == Edited(c, name, phone, email)
  {
  }

  /** The list after `edit_contact` for id `id`: the first contact with that id is edited in place. */
  function EditFirst(s: seq<Contact>, id: int, name: string, phone: string, email: string): (r: seq<Contact>)
    ensures |r| == |s|
    ensures forall j :: 0 <= j < |s| ==> r[j].id == s[j].id
    ensures forall j :: 0 <= j < |s| && FirstIndex(s, ContactId, id) != Some(j) ==> r[j] == s[j]
    ensures !HasId(s, ContactId, id) ==> r == s
    ensures Find(r, ContactId, id) ==
              match Find(s, ContactId, id)
              case None => None
              case Some(c) => Some(Edited(c, name, phone, email))
  {
    match FirstIndex(s, ContactId, id)
    case None => s
    case Some(i) =>
      var r := s[i := Edited(s[i], name, phone, email)];
      FirstIndexSameKeys(s, r, ContactId, id);
      r
  }

  // ---- dictionary form (to_dict, and Contact(**d) when loading) ----

  /** The keys `to_dict` writes. */
  const DictKeys: set<string> := {"id", "name", "phone", "email"}

  /** The id parameter of `Contact.__init__` as the source names it. */
  const SourceIdParam := "contact_id"

  function ToDict(c: Contact): (d: Dict)
    ensures d.Keys == DictKeys
  {
    map["id" := Int(c.id), "name" := Str(c.name), "phone" := Str(c.phone), "email" := Str(c.email)]
  }

  /** Building a contact from a loaded dictionary by keyword arguments (personal_assistent.py:305), for a constructor whose id parameter is called `idParam`; every parameter is required, and a value of a kind the field cannot hold is reported as `WrongType`, where Python would store it unchecked. */
  function Rebuild(d: Dict, idParam: string): Result<Contact>
  {
    match Bind(d, {idParam, "name", "phone", "email"}, {idParam, "name", "phone", "email"})
    case Err(e) => Err(e)
    case Ok(_) =>
      if d[idParam].Int? && d["name"].Str? && d["phone"].Str? && d["email"].Str? then
        Ok(Contact(d[idParam].i, d["name"].s, d["phone"].s, d["email"].s))
      else
        Err(WrongType)
  }

  /** As written, rebuilding a saved contact raises: the key `id` names no parameter of the constructor (personal_assistent.py:40). */
  lemma RebuildAsWrittenFails(c: Contact)
    ensures Rebuild(ToDict(c), SourceIdParam) == Err(UnexpectedKeyword)
  {
    assert "id" in ToDict(c).Keys;
  }

  /** With the id parameter named after the key, rebuilding a saved contact gives it back. */
  lemma RebuildRoundTrip(c: Contact)
    ensures Rebuild(ToDict(c), "id") == Ok(c)
  {
  }

  /** What `save_contacts` writes (personal_assistent.py:311): one dictionary per contact, in order. */
  function Save(s: seq<Contact>): (ds: seq<Dict>)
    ensures |ds| == |s|
    ensures forall k :: 0 <= k < |s| ==> ds[k] == ToDict(s[k])
    decreases |s|
  {
    if s == [] then [] else [ToDict(s[0])] + Save(s[1..])
  }

  /** `Rebuild` with the id parameter's name fixed, as a function value for `LoadAll`. */
  function Rebuilder(idParam: string): Dict -> Result<Contact>
  {
    d => Rebuild(d, idParam)
  }

  /** What `load_contacts` returns (personal_assistent.py:305): one contact per dictionary; the first failing dictionary aborts it. */
  function Load(ds: seq<Dict>, idParam: string): (r: Result<seq<Contact>>)
    ensures r.Ok? ==> |r.value| == |ds| && forall k :: 0 <= k < |ds| ==> Rebuild(ds[k], idParam) == Ok(r.value[k])
    ensures r.Ok? <==> forall k :: 0 <= k < |ds| ==> Rebuild(ds[k], idParam).Ok?
    ensures r.Err? ==>
              exists k :: 0 <= k < |ds| && Rebuild(ds[k], idParam) == Err(r.error) &&
                forall j :: 0 <= j < k ==> Rebuild(ds[j], idParam).Ok?
  {
    LoadAll(ds, Rebuilder(idParam))
  }

  /** As written, loading what was saved fails for every non-empty collection. */
  lemma {:induction false} LoadAsWrittenFails(s: seq<Contact>)
    requires |s| > 0
    ensures Load(Save(s), SourceIdParam) == Err(UnexpectedKeyword)
  {
    RebuildAsWrittenFails(s[0]);
  }

  /** With the parameter named `id`, loading what was saved gives the collection back. */
  lemma {:induction false} LoadSaveRoundTrip(s: seq<Contact>)
    ensures Load(Save(s), "id") == Ok(s)
    decreases |s|
  {
    if s != [] {
      assert Save(s)[0] == ToDict(s[0]) && Save(s)[1..] == Save(s[1..]);
      RebuildRoundTrip(s[0]);
      LoadSaveRoundTrip(s[1..]);
      assert [s[0]] + s[1..] == s;
    }
  }

  // ---- CSV form ----

  /** The export header, in column order. */
  const CsvFields: seq<string> := ["id", "name", "phone", "email"]

  /** The columns the import reads from each row. */
  const CsvColumns: set<string> := {"name", "phone", "email"}

  /** The contact the import loop builds from a row (personal_assistent.py:358): the assigned id and the row's name, phone and email cells. */
  function FromCsvRow(row: CsvRow, id: int): (c: Contact)
    requires CsvColumns <= row.Keys
    ensures c.id == id && c.name == row["name"] && c.phone == row["phone"] && c.email == row["email"]
  {
    Contact(id, row["name"], row["phone"], row["email"])
  }

  /** The row the CSV writer produces for a contact's dictionary (personal_assistent.py:371). */
  function ToCsvRow(c: Contact): (row: CsvRow)
    ensures row.Keys == set f | f in CsvFields
  {
    map["id" := Strings.IntToString(c.id), "name" := c.name, "phone" := c.phone, "email" := c.email]
  }

  /** The rows `export_contacts_to_csv` writes after the header. */
  function ExportRows(s: seq<Contact>): (rows: seq<CsvRow>)
    ensures |rows| == |s|
    ensures forall k :: 0 <= k < |s| ==> rows[k] == ToCsvRow(s[k])
    decreases |s|
  {
    if s == [] then [] else [ToCsvRow(s[0])] + ExportRows(s[1..])
  }

  /** Importing an exported contact gives it back under the id the import assigns. */
  lemma ImportOfExport(c: Contact, id: int)
    ensures CsvColumns <= ToCsvRow(c).Keys
    ensures FromCsvRow(ToCsvRow(c), id) == c.(id := id)
  {
  }

  /** Every exported row carries the columns the import reads, so importing an export never stops early. */
  lemma ExportRowsImportable(s: seq<Contact>)
    ensures LeadingRows(ExportRows(s), CsvColumns) == |s|
  {
    var rows := ExportRows(s);
    forall k | 0 <= k < |rows|
      ensures CsvColumns <= rows[k].Keys
    {
      assert rows[k] == ToCsvRow(s[k]);
    }
    LeadingRowsAll(rows, CsvColumns);
  }

  // ---- the in-memory collection ----

  /** The list of contacts the contacts menu works on. */
  class ContactList {
    var items: seq<Contact>

    /** The list `load_contacts` returns: the stored contacts, or none when there is no file. */
    constructor (loaded: seq<Contact>)
      ensures items == loaded
    {
      items := loaded;
    }

    /** `add_contact`: a contact with id `len + 1` and the entered fields is appended. */
    method Add(name: string, phone: string, email: string) returns (contact: Contact)
      modifies this
      ensures contact.id == |old(items)| + 1
      ensures contact.name == name && contact.phone == phone && contact.email == email
      ensures items == old(items) + [contact]
      ensures DenseIds(old(items), ContactId) ==> DenseIds(items, ContactId)
    {
      contact := Contact(|items| + 1, name, phone, email);
      items := items + [contact];
    }

    /** `edit_contact`: the first contact with the id gets each new field where one was entered. */
    method Edit(id: int, name: string, phone: string, email: string) returns (found: bool)
      modifies this
      ensures found <==> HasId(old(items), ContactId, id)
      ensures items == EditFirst(old(items), id, name, phone, email)
    {
      match FirstIndex(items, ContactId, id) {
        case None =>
          found := false;
        case Some(i) =>
          var contact := items[i];
          contact := contact.(name := Or(name, contact.name));
          contact := contact.(phone := Or(phone, contact.phone));
          contact := contact.(email := Or(email, contact.email));
          items := items[i := contact];
          found := true;
      }
    }

    /** `delete_contact`: the first contact with the id is removed; an absent id changes nothing. */
    method Delete(id: int) returns (removed: bool)
      modifies this
      ensures removed <==> HasId(old(items), ContactId, id)
      ensures items == Deleted(old(items), ContactId, id)
    {
      match FirstIndex(items, ContactId, id) {
        case None =>
          removed := false;
        case Some(i) =>
          items := items[..i] + items[i + 1..];
          removed := true;
      }
    }

    /**
     * The row loop of `import_contacts_from_csv`: each row becomes a contact
     * with id `len + 1` at the time it is appended. A row without one of the
     * columns raises a KeyError, which ends the import; the rows before it stay appended.
     */
    method ImportCsv(rows: seq<CsvRow>) returns (ok: bool)
      modifies this
      ensures ok <==> LeadingRows(rows, CsvColumns) == |rows|
      ensures |items| == |old(items)| + LeadingRows(rows, CsvColumns)
      ensures items[..|old(items)|] == old(items)
      ensures forall k :: |old(items)| <= k < |items| ==>
                items[k] == FromCsvRow(rows[k - |old(items)|], k + 1)
      ensures forall k :: |old(items)| <= k < |items| ==> items[k].id == k + 1
      ensures DenseIds(old(items), ContactId) ==> DenseIds(items, ContactId)
    {
      ghost var n := LeadingRows(rows, CsvColumns);
      ghost var m := |items|;
      var i := 0;
      while i < |rows|
        invariant 0 <= i <= n
        invariant |items| == m + i
        invariant items[..m] == old(items)
        invariant forall k :: m <= k < |items| ==> items[k] == FromCsvRow(rows[k - m], k + 1)
      {
        var row := rows[i];
        if !(CsvColumns <= row.Keys) {
          return false;
        }
        var contact := FromCsvRow(row, |items| + 1);
        items := items + [contact];
        i := i + 1;
      }
      ok := true;
    }
  }
}
