/**
 * The list logic that the four record collections share: each collection is a
 * list of flat records, each record carries an integer id, and lookups scan the
 * list from the front for the first record whose id matches.
 *
 * The functions here are generic in the record type `R`; `key` projects a
 * record onto its id (each schema passes its own `NoteId`, `TaskId`, ...).
 */
module Collection {

  datatype Option<T> = None | Some(value: T)

  /** A CSV row as a dictionary reader yields it: column name to cell text. */
  type CsvRow = map<string, string>

  /**
   * Python's `entered or previous` on strings: the empty string is falsy, so
   * an empty entry keeps the previous value.
   */
  function Or(entered: string, previous: string): string
  {
    if entered == "" then previous else entered
  }

  /** Some record in `s` has id `id`. */
  ghost predicate HasId<R>(s: seq<R>, key: R -> int, id: int)
  {
    exists i :: 0 <= i < |s| && key(s[i]) == id
  }

  /** No two records of `s` share an id. */
  ghost predicate UniqueIds<R>(s: seq<R>, key: R -> int)
  {
    forall i, j :: 0 <= i < j < |s| ==> key(s[i]) != key(s[j])
  }

  /** The ids are exactly 1, 2, ..., |s| in list order: what `len + 1` allocation gives when nothing was deleted. */
  ghost predicate DenseIds<R>(s: seq<R>, key: R -> int)
  {
    forall i :: 0 <= i < |s| ==> key(s[i]) == i + 1
  }

  /** The position of the first record with id `id`, scanning from the front. */
  function FirstIndex<R>(s: seq<R>, key: R -> int, id: int): (r: Option<nat>)
    ensures r.Some? ==> r.value < |s| && key(s[r.value]) == id
    ensures r.Some? ==> forall j :: 0 <= j < r.value ==> key(s[j]) != id
    ensures r.None? ==> forall j :: 0 <= j < |s| ==> key(s[j]) != id
    decreases |s|
  {
    if s == [] then None
    else if key(s[0]) == id then Some(0)
    else
      match FirstIndex(s[1..], key, id)
      case None => None
      case Some(k) => Some(k + 1)
  }

  /** The lookup of every menu (personal_assistent.py:97): the first record whose id is `id`, or none. */
  function Find<R>(s: seq<R>, key: R -> int, id: int): (r: Option<R>)
    ensures r.None? <==> !HasId(s, key, id)
    ensures r.Some? ==> key(r.value) == id
    ensures r.Some? ==> exists i :: 0 <= i < |s| && s[i] == r.value && forall j :: 0 <= j < i ==> key(s[j]) != id
  {
    match FirstIndex(s, key, id)
    case None => None
    case Some(i) => Some(s[i])
  }

  /** Removal of the record the lookup found (personal_assistent.py:122): the record at the first match's position is taken out. */
  function Deleted<R>(s: seq<R>, key: R -> int, id: int): seq<R>
  {
    match FirstIndex(s, key, id)
    case None => s
    case Some(i) => s[..i] + s[i + 1..]
  }

  /** A delete shortens the list by one exactly when some record has the id; otherwise it changes nothing. */
  lemma DeletedLength<R>(s: seq<R>, key: R -> int, id: int)
    ensures HasId(s, key, id) ==> |Deleted(s, key, id)| == |s| - 1
    ensures !HasId(s, key, id) ==> Deleted(s, key, id) == s
  {
    if HasId(s, key, id) {
      assert FirstIndex(s, key, id).Some?;
    }
  }

  /** Any two lists with the same ids position by position have the same first match. */
  lemma {:induction false} FirstIndexSameKeys<R>(s: seq<R>, t: seq<R>, key: R -> int, id: int)
    requires |s| == |t|
    requires forall j :: 0 <= j < |s| ==> key(s[j]) == key(t[j])
    ensures FirstIndex(s, key, id) == FirstIndex(t, key, id)
    decreases |s|
  {
    if s != [] && key(s[0]) != id {
      FirstIndexSameKeys(s[1..], t[1..], key, id);
    }
  }

  /** With unique ids the lookup returns the one record carrying the id. */
  lemma {:induction false} FindUnique<R>(s: seq<R>, key: R -> int, i: nat)
    requires UniqueIds(s, key)
    requires i < |s|
    ensures Find(s, key, key(s[i])) == Some(s[i])
  {
    var f := FirstIndex(s, key, key(s[i]));
    assert f.Some? && f.value <= i;
  }

  /**
   * After appending `x`, a lookup of `x`'s id succeeds. It returns `x` itself
   * only when no earlier record already had that id; otherwise it returns the
   * earlier record, exactly as before the append.
   */
  lemma {:induction false} FindAfterAppend<R>(s: seq<R>, key: R -> int, x: R)
    ensures Find(s + [x], key, key(x)).Some?
    ensures !HasId(s, key, key(x)) ==> Find(s + [x], key, key(x)) == Some(x)
    ensures HasId(s, key, key(x)) ==> Find(s + [x], key, key(x)) == Find(s, key, key(x))
  {
    var t := s + [x];
    var ft := FirstIndex(t, key, key(x));
    assert key(t[|s|]) == key(x);
    assert ft.Some?;
    if HasId(s, key, key(x)) {
      var fs := FirstIndex(s, key, key(x));
      var i := fs.value;
      assert key(t[i]) == key(x);
      assert ft.value <= i;
      assert key(s[ft.value]) == key(x);
      assert ft.value == i;
    } else {
      assert ft.value == |s|;
    }
  }

  /** Deleting keeps every record before the first match in place and shifts every record after it down by one. */
  lemma DeletedAt<R>(s: seq<R>, key: R -> int, id: int, j: nat)
    requires FirstIndex(s, key, id).Some?
    requires j < |s| - 1
    ensures |Deleted(s, key, id)| == |s| - 1
    ensures Deleted(s, key, id)[j] == if j < FirstIndex(s, key, id).value then s[j] else s[j + 1]
  {
  }

  /** Each record left after a delete comes from the original list and does not carry the deleted id, when ids are unique. */
  lemma DeletedFromOriginal<R>(s: seq<R>, key: R -> int, id: int, j: nat)
    requires UniqueIds(s, key)
    requires j < |Deleted(s, key, id)|
    ensures Deleted(s, key, id)[j] in s
    ensures key(Deleted(s, key, id)[j]) != id
  {
    if FirstIndex(s, key, id).Some? {
      DeletedAt(s, key, id, j);
    }
  }

  /** Every record whose id is not the deleted one survives the delete. */
  lemma DeletedKeepsOthers<R>(s: seq<R>, key: R -> int, id: int, j: nat)
    requires j < |s| && key(s[j]) != id
    ensures s[j] in Deleted(s, key, id)
  {
    if FirstIndex(s, key, id).Some? {
      var i := FirstIndex(s, key, id).value;
      if j < i {
        DeletedAt(s, key, id, j);
      } else {
        DeletedAt(s, key, id, j - 1);
      }
    }
  }

  /** On a list with unique ids, deleting an id removes exactly the record with that id and keeps the ids unique. */
  lemma {:induction false} DeletedUnique<R>(s: seq<R>, key: R -> int, id: int)
    requires UniqueIds(s, key)
    ensures UniqueIds(Deleted(s, key, id), key)
    ensures !HasId(Deleted(s, key, id), key, id)
    ensures forall x :: x in Deleted(s, key, id) <==> x in s && key(x) != id
  {
    var r := Deleted(s, key, id);
    var f := FirstIndex(s, key, id);
    if f.Some? {
      forall j | 0 <= j < |r|
        ensures r[j] in s && key(r[j]) != id
      {
        DeletedFromOriginal(s, key, id, j);
      }
      forall x | x in s && key(x) != id
        ensures x in r
      {
        var j :| 0 <= j < |s| && s[j] == x;
        DeletedKeepsOthers(s, key, id, j);
      }
      forall j, k | 0 <= j < k < |r|
        ensures key(r[j]) != key(r[k])
      {
        DeletedIncreasing(s, key, id, j, k);
      }
    }
  }

  /** Two positions of the list after a delete come from two positions of the original list in the same order. */
  lemma DeletedIncreasing<R>(s: seq<R>, key: R -> int, id: int, j: nat, k: nat)
    requires UniqueIds(s, key)
    requires j < k < |Deleted(s, key, id)|
    ensures key(Deleted(s, key, id)[j]) != key(Deleted(s, key, id)[k])
  {
    if FirstIndex(s, key, id).Some? {
      DeletedAt(s, key, id, j);
      DeletedAt(s, key, id, k);
      var i := FirstIndex(s, key, id).value;
      var sj := if j < i then j else j + 1;
      var sk := if k < i then k else k + 1;
      assert sj < sk;
    }
  }

  /** `len + 1` allocation keeps ids dense as long as only appends happen, and dense ids are unique. */
  lemma DenseIdsAreUnique<R>(s: seq<R>, key: R -> int)
    requires DenseIds(s, key)
    ensures UniqueIds(s, key)
    ensures !HasId(s, key, |s| + 1)
  {
  }

  /** Appending a record with id `len + 1` to a list with ids 1..n keeps the ids 1..n+1. */
  lemma DenseAppend<R>(s: seq<R>, key: R -> int, x: R)
    requires DenseIds(s, key)
    requires key(x) == |s| + 1
    ensures DenseIds(s + [x], key)
  {
  }

  /**
   * The id policy `len + 1` after a deletion: deleting any id but the last
   * from a list with ids 1..n (n >= 2) and then appending a record with the new
   * id `len + 1` gives two records with the same id.
   */
  lemma {:induction false} DeleteThenAddCollides<R>(s: seq<R>, key: R -> int, k: int, x: R)
    requires DenseIds(s, key) && 1 <= k < |s|
    requires key(x) == |Deleted(s, key, k)| + 1
    ensures !UniqueIds(Deleted(s, key, k) + [x], key)
  {
    assert key(s[k - 1]) == k;
    var f := FirstIndex(s, key, k);
    assert f.Some? && f.value == k - 1;
    DeletedAt(s, key, k, |s| - 2);
    var r := Deleted(s, key, k) + [x];
    assert r[|s| - 2] == s[|s| - 1];
    assert key(r[|s| - 2]) == key(r[|s| - 1]);
  }

  /** Deleting the last id of a list with ids 1..n leaves ids 1..n-1, so the next `len + 1` id is fresh again. */
  lemma {:induction false} DeleteLastKeepsDense<R>(s: seq<R>, key: R -> int)
    requires DenseIds(s, key) && |s| >= 1
    ensures DenseIds(Deleted(s, key, |s|), key)
    ensures |Deleted(s, key, |s|)| == |s| - 1
  {
    assert key(s[|s| - 1]) == |s|;
    var f := FirstIndex(s, key, |s|);
    assert f.Some? && f.value == |s| - 1;
    assert Deleted(s, key, |s|) == s[..|s| - 1];
  }

  /** A list comprehension with a condition: the records that pass `keep`, in list order. */
  function Select<R(!new)>(s: seq<R>, keep: R -> bool): (r: seq<R>)
    ensures |r| <= |s|
    ensures forall x :: x in r <==> x in s && keep(x)
    decreases |s|
  {
    if s == [] then []
    else if keep(s[0]) then [s[0]] + Select(s[1..], keep)
    else Select(s[1..], keep)
  }

  /** Selecting from a concatenation selects from each part in turn. */
  lemma {:induction false} SelectAppend<R(!new)>(a: seq<R>, b: seq<R>, keep: R -> bool)
    ensures Select(a + b, keep) == Select(a, keep) + Select(b, keep)
    decreases |a|
  {
    if a == [] {
      assert a + b == b;
    } else {
      SelectAppend(a[1..], b, keep);
      assert (a + b)[1..] == a[1..] + b;
    }
  }

  /** When every record passes `keep`, selecting keeps the whole list. */
  lemma {:induction false} SelectAll<R(!new)>(s: seq<R>, keep: R -> bool)
    requires forall k :: 0 <= k < |s| ==> keep(s[k])
    ensures Select(s, keep) == s
    decreases |s|
  {
    if s != [] {
      SelectAll(s[1..], keep);
      assert [s[0]] + s[1..] == s;
    }
  }

  /**
   * How many rows at the front of `rows` carry every column in `columns`: the
   * import loop stops (with a KeyError) at the first row that lacks one.
   */
  function LeadingRows(rows: seq<CsvRow>, columns: set<string>): (n: nat)
    ensures n <= |rows|
    ensures forall k :: 0 <= k < n ==> columns <= rows[k].Keys
    ensures n < |rows| ==> !(columns <= rows[n].Keys)
    decreases |rows|
  {
    if rows == [] || !(columns <= rows[0].Keys) then 0
    else 1 + LeadingRows(rows[1..], columns)
  }

  /** Rows that all carry the columns are all consumed by the import. */
  lemma {:induction false} LeadingRowsAll(rows: seq<CsvRow>, columns: set<string>)
    requires forall k :: 0 <= k < |rows| ==> columns <= rows[k].Keys
    ensures LeadingRows(rows, columns) == |rows|
    decreases |rows|
  {
    if rows != [] {
      LeadingRowsAll(rows[1..], columns);
    }
  }
}
