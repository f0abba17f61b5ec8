/** Queryset operations over a table held as a sequence of rows in insertion order:
    `.filter(...)` and the newest-first ordering `.order_by("-created_at")`. */
module Tables {
  import opened Common

  /** The primary-key constraint: no key is stored twice. */
  predicate UniqueKeys<T>(rows: seq<T>, key: T -> Id) {
    forall i, j :: 0 <= i < j < |rows| ==> key(rows[i]) != key(rows[j])
  }

  /** `Model.objects.get(pk=id)`: the position of the row with that key. */
  function IndexOf<T>(rows: seq<T>, key: T -> Id, id: Id): (r: Option<nat>)
    ensures r.Some? ==> r.value < |rows| && key(rows[r.value]) == id
    ensures r.Some? ==> forall j :: 0 <= j < r.value ==> key(rows[j]) != id
    ensures r.None? <==> forall j :: 0 <= j < |rows| ==> key(rows[j]) != id
  {
    if rows == [] then
      None
    else if key(rows[0]) == id then
      Some(0)
    else
      match IndexOf(rows[1..], key, id)
      case None =>
        assert forall j :: 1 <= j < |rows| ==> rows[j] == rows[1..][j - 1];
        None
      case Some(k) =>
        assert rows[k + 1] == rows[1..][k];
        Some(k + 1)
  }

  /** Rewriting columns other than the key moves no row: lookups give the same answer. */
  lemma {:induction false} IndexOfSameKeys<T>(a: seq<T>, b: seq<T>, key: T -> Id, id: Id)
    requires |a| == |b| && forall k :: 0 <= k < |a| ==> key(a[k]) == key(b[k])
    ensures IndexOf(a, key, id) == IndexOf(b, key, id)
  {
    if a != [] {
      IndexOfSameKeys(a[1..], b[1..], key, id);
    }
  }

  /** Inserting a row keeps every row that was already found, at the same position. */
  lemma IndexOfAppend<T>(rows: seq<T>, x: T, key: T -> Id, id: Id)
    requires IndexOf(rows, key, id).Some?
    ensures IndexOf(rows + [x], key, id) == IndexOf(rows, key, id)
  {
    var k := IndexOf(rows, key, id).value;
    assert (rows + [x])[k] == rows[k];
    assert forall j :: 0 <= j < k ==> (rows + [x])[j] == rows[j];
  }

  /** `Model.objects.filter(pk=id).delete()`: the table without the row with that key. */
  function RemoveKey<T(!new)>(rows: seq<T>, key: T -> Id, id: Id): (r: seq<T>)
    ensures forall x :: x in r <==> x in rows && key(x) != id
  {
    Filter(rows, KeyIsNot(key, id))
  }

  function KeyIsNot<T>(key: T -> Id, id: Id): T -> bool {
    x => key(x) != id
  }

  lemma RemoveKeyKeepsUniqueKeys<T(!new)>(rows: seq<T>, key: T -> Id, id: Id)
    requires UniqueKeys(rows, key)
    ensures UniqueKeys(RemoveKey(rows, key, id), key)
  {
    FilterKeepsUniqueKeys(rows, KeyIsNot(key, id), key);
  }

  lemma {:induction false} FilterKeepsUniqueKeys<T(!new)>(rows: seq<T>, keep: T -> bool, key: T -> Id)
    requires UniqueKeys(rows, key)
    ensures UniqueKeys(Filter(rows, keep), key)
  {
    if rows != [] {
      FilterKeepsUniqueKeys(rows[1..], keep, key);
      var rest := Filter(rows[1..], keep);
      forall j | 0 <= j < |rest| ensures key(rest[j]) != key(rows[0]) {
        assert rest[j] in rows[1..];
      }
    }
  }

  /** Every row of the table except the deleted one is still found after the delete. */
  lemma RemoveKeyKeeps<T(!new)>(rows: seq<T>, key: T -> Id, id: Id, other: Id)
    requires other != id && IndexOf(rows, key, other).Some?
    ensures IndexOf(RemoveKey(rows, key, id), key, other).Some?
    ensures IndexOf(RemoveKey(rows, key, id), key, id).None?
  {
    var k := IndexOf(rows, key, other).value;
    assert rows[k] in RemoveKey(rows, key, id);
  }

  /** After the delete no row has the deleted key. */
  lemma RemoveKeyRemoves<T(!new)>(rows: seq<T>, key: T -> Id, id: Id)
    ensures IndexOf(RemoveKey(rows, key, id), key, id).None?
  {
    var r := RemoveKey(rows, key, id);
    forall j | 0 <= j < |r| ensures key(r[j]) != id {
      assert r[j] in r;
    }
  }

  /** Appending a row whose key is not taken keeps the keys unique. */
  lemma UniqueKeysAppend<T>(rows: seq<T>, x: T, key: T -> Id)
    requires UniqueKeys(rows, key) && IndexOf(rows, key, key(x)).None?
    ensures UniqueKeys(rows + [x], key)
  {
    var r := rows + [x];
    forall i, j | 0 <= i < j < |r| ensures key(r[i]) != key(r[j]) {
      if j == |rows| {
        assert r[i] == rows[i];
      }
    }
  }

  /** Appending a row no older than the newest keeps the table in `key` order. */
  lemma AscendingAppend<T>(s: seq<T>, x: T, key: T -> int)
    requires Ascending(s, key) && (s == [] || key(s[|s| - 1]) <= key(x))
    ensures Ascending(s + [x], key)
  {
    var t := s + [x];
    forall i, j | 0 <= i < j < |t| ensures key(t[i]) <= key(t[j]) {
      if j == |s| && i < |s| - 1 {
        assert key(s[i]) <= key(s[|s| - 1]);
      }
    }
  }

  /** `.filter(keep)`: the kept rows, in table order. */
  function Filter<T(!new)>(s: seq<T>, keep: T -> bool): (r: seq<T>)
    ensures |r| <= |s|
    ensures forall x :: x in r <==> x in s && keep(x)
  {
    if s == [] then
      []
    else
      assert s == [s[0]] + s[1..];
      (if keep(s[0]) then [s[0]] else []) + Filter(s[1..], keep)
  }

  function Reverse<T(!new)>(s: seq<T>): (r: seq<T>)
    ensures |r| == |s|
    ensures forall x :: x in r <==> x in s
  {
    var r := seq(|s|, i requires 0 <= i < |s| => s[|s| - 1 - i]);
    assert forall i :: 0 <= i < |s| ==> s[i] == r[|s| - 1 - i];
    r
  }

  /** Rows in non-decreasing order of `key`: a table whose rows were inserted as time went on. */
  ghost predicate Ascending<T>(s: seq<T>, key: T -> int) {
    forall i, j :: 0 <= i < j < |s| ==> key(s[i]) <= key(s[j])
  }

  /** Rows in non-increasing order of `key`: newest first. */
  ghost predicate Descending<T>(s: seq<T>, key: T -> int) {
    forall i, j :: 0 <= i < j < |s| ==> key(s[i]) >= key(s[j])
  }

  lemma {:induction false} FilterAscending<T(!new)>(s: seq<T>, keep: T -> bool, key: T -> int)
    requires Ascending(s, key)
    ensures Ascending(Filter(s, keep), key)
  {
    if s != [] {
      var rest := Filter(s[1..], keep);
      FilterAscending(s[1..], keep, key);
      if keep(s[0]) {
        HeadIsLeast(s, key);
        AscendingCons(s[0], rest, key);
        assert Filter(s, keep) == [s[0]] + rest;
      } else {
        assert Filter(s, keep) == rest;
      }
    }
  }

  /** The first row of an ascending table has the least key. */
  lemma HeadIsLeast<T>(s: seq<T>, key: T -> int)
    requires Ascending(s, key) && s != []
    ensures forall x :: x in s[1..] ==> key(s[0]) <= key(x)
  {
    forall x | x in s[1..] ensures key(s[0]) <= key(x) {
      var m :| 0 <= m < |s[1..]| && s[1..][m] == x;
      assert s[m + 1] == x;
    }
  }

  lemma AscendingCons<T>(x: T, rest: seq<T>, key: T -> int)
    requires Ascending(rest, key) && forall y :: y in rest ==> key(x) <= key(y)
    ensures Ascending([x] + rest, key)
  {
    var r := [x] + rest;
    forall i, j | 0 <= i < j < |r| ensures key(r[i]) <= key(r[j]) {
      if i == 0 {
        assert r[j] in rest;
      } else {
        assert r[i] == rest[i - 1] && r[j] == rest[j - 1];
      }
    }
  }

  lemma ReverseAscending<T(!new)>(s: seq<T>, key: T -> int)
    requires Ascending(s, key)
    ensures Descending(Reverse(s), key)
  {
  }

  /** A filtered table read newest first is in non-increasing `key` order when the table
      was filled in non-decreasing `key` order. */
  lemma NewestFirst<T(!new)>(s: seq<T>, keep: T -> bool, key: T -> int)
    requires Ascending(s, key)
    ensures Descending(Reverse(Filter(s, keep)), key)
  {
    FilterAscending(s, keep, key);
    ReverseAscending(Filter(s, keep), key);
  }
}
