/** A save table: the shape shared by `SavedPitch` (investor, pitch, saved_at) and
    `SavedInvestorPost` (developer, post, saved_at), both with `unique_together` on the
    (user, item) pair and both deleted in cascade with their item. */
module Bookmarks {
  import opened Common

  /** One row: `user` saved `item` at `savedAt`. */
  datatype Bookmark = Bookmark(user: Id, item: Id, savedAt: Timestamp)

  predicate Saves(b: Bookmark, user: Id, item: Id) {
    b.user == user && b.item == item
  }

  /** The `unique_together = (user, item)` constraint: no pair is stored twice. */
  predicate Unique(rows: seq<Bookmark>) {
    forall i, j :: 0 <= i < j < |rows| ==> !Saves(rows[j], rows[i].user, rows[i].item)
  }

  /** Position of the first (user, item) row: `filter(user, item).first()` and `get(user, item)`. */
  function Lookup(rows: seq<Bookmark>, user: Id, item: Id): (r: Option<nat>)
    ensures r.Some? ==> r.value < |rows| && Saves(rows[r.value], user, item)
    ensures r.Some? ==> forall j :: 0 <= j < r.value ==> !Saves(rows[j], user, item)
    ensures r.None? <==> forall j :: 0 <= j < |rows| ==> !Saves(rows[j], user, item)
  {
    if rows == [] then
      None
    else if Saves(rows[0], user, item) then
      Some(0)
    else
      match Lookup(rows[1..], user, item)
      case None =>
        assert forall j :: 1 <= j < |rows| ==> rows[j] == rows[1..][j - 1];
        None
      case Some(k) =>
        assert rows[k + 1] == rows[1..][k];
        Some(k + 1)
  }

  predicate IsSaved(rows: seq<Bookmark>, user: Id, item: Id) {
    Lookup(rows, user, item).Some?
  }

  /** Saving a pair that is not saved and then unsaving it gives back the table: the row
      found for the pair is the one just appended. */
  lemma SaveThenUnsaveRestores(rows: seq<Bookmark>, b: Bookmark)
    requires !IsSaved(rows, b.user, b.item)
    ensures Lookup(rows + [b], b.user, b.item) == Some(|rows|)
    ensures RemoveAt(rows + [b], |rows|) == rows
  {
    var s := rows + [b];
    assert Saves(s[|rows|], b.user, b.item);
    forall j | 0 <= j < |rows| ensures !Saves(s[j], b.user, b.item) {
      assert s[j] == rows[j];
    }
    assert s[..|rows|] == rows;
  }

  /** The number of rows that save `item`: `item.savedpitch_set.count()`. */
  function Count(rows: seq<Bookmark>, item: Id): nat {
    if rows == [] then 0
    else (if rows[0].item == item then 1 else 0) + Count(rows[1..], item)
  }

  /** Deleting one row. */
  function RemoveAt(rows: seq<Bookmark>, i: nat): (r: seq<Bookmark>)
    requires i < |rows|
    ensures |r| == |rows| - 1
  {
    rows[..i] + rows[i + 1..]
  }

  /** `Model.objects.filter(user=user)`: the caller's rows, in table order. */
  function RowsOf(rows: seq<Bookmark>, user: Id): (r: seq<Bookmark>)
    ensures |r| <= |rows|
    ensures forall b :: b in r <==> b in rows && b.user == user
  {
    if rows == [] then
      []
    else
      assert rows == [rows[0]] + rows[1..];
      (if rows[0].user == user then [rows[0]] else []) + RowsOf(rows[1..], user)
  }

  /** The cascade of `on_delete=CASCADE` when `item` is deleted: every row saving it goes. */
  function WithoutItem(rows: seq<Bookmark>, item: Id): (r: seq<Bookmark>)
    ensures forall b :: b in r <==> b in rows && b.item != item
  {
    if rows == [] then
      []
    else
      assert rows == [rows[0]] + rows[1..];
      (if rows[0].item == item then [] else [rows[0]]) + WithoutItem(rows[1..], item)
  }

  lemma {:induction false} CountConcat(a: seq<Bookmark>, b: seq<Bookmark>, item: Id)
    ensures Count(a + b, item) == Count(a, item) + Count(b, item)
  {
    if a != [] {
      assert (a + b)[1..] == a[1..] + b;
      CountConcat(a[1..], b, item);
    } else {
      assert a + b == b;
    }
  }

  /** Inserting a row adds one to its item's count and leaves every other count alone. */
  lemma CountAppend(rows: seq<Bookmark>, b: Bookmark, item: Id)
    ensures Count(rows + [b], item) == Count(rows, item) + (if b.item == item then 1 else 0)
  {
    CountConcat(rows, [b], item);
  }

  /** Deleting a row takes one from its item's count and leaves every other count alone. */
  lemma CountRemoveAt(rows: seq<Bookmark>, i: nat, item: Id)
    requires i < |rows|
    ensures Count(RemoveAt(rows, i), item) == Count(rows, item) - (if rows[i].item == item then 1 else 0)
  {
    assert rows == rows[..i] + ([rows[i]] + rows[i + 1..]);
    CountConcat(rows[..i], [rows[i]] + rows[i + 1..], item);
    CountConcat([rows[i]], rows[i + 1..], item);
    CountConcat(rows[..i], rows[i + 1..], item);
  }

  /** After the cascade no row counts for the deleted item, and other items keep their count. */
  lemma {:induction false} CountWithoutItem(rows: seq<Bookmark>, item: Id, other: Id)
    ensures Count(WithoutItem(rows, item), item) == 0
    ensures other != item ==> Count(WithoutItem(rows, item), other) == Count(rows, other)
  {
    if rows != [] {
      CountWithoutItem(rows[1..], item, other);
      var head := if rows[0].item == item then [] else [rows[0]];
      CountConcat(head, WithoutItem(rows[1..], item), item);
      CountConcat(head, WithoutItem(rows[1..], item), other);
    }
  }

  /** An item no row refers to has no saves. */
  lemma {:induction false} CountAbsent(rows: seq<Bookmark>, item: Id)
    requires forall b :: b in rows ==> b.item != item
    ensures Count(rows, item) == 0
  {
    if rows != [] {
      assert rows[0] in rows;
      CountAbsent(rows[1..], item);
    }
  }

  /** Inserting a pair that is not yet stored keeps the constraint. */
  lemma UniqueAppend(rows: seq<Bookmark>, b: Bookmark)
    requires Unique(rows) && !IsSaved(rows, b.user, b.item)
    ensures Unique(rows + [b])
  {
  }

  /** Deleting a row keeps the constraint, and under the constraint the deleted pair is
      then no longer saved. */
  lemma UniqueRemoveAt(rows: seq<Bookmark>, i: nat)
    requires Unique(rows) && i < |rows|
    ensures Unique(RemoveAt(rows, i))
    ensures !IsSaved(RemoveAt(rows, i), rows[i].user, rows[i].item)
  {
    var r := RemoveAt(rows, i);
    assert forall j :: 0 <= j < |r| ==> r[j] == rows[if j < i then j else j + 1];
  }

  /** The cascade keeps the constraint. */
  lemma {:induction false} UniqueWithoutItem(rows: seq<Bookmark>, item: Id)
    requires Unique(rows)
    ensures Unique(WithoutItem(rows, item))
  {
    if rows != [] {
      assert Unique(rows[1..]);
      UniqueWithoutItem(rows[1..], item);
      if rows[0].item != item {
        var rest := WithoutItem(rows[1..], item);
        forall j | 0 <= j < |rest| ensures !Saves(rest[j], rows[0].user, rows[0].item) {
          assert rest[j] in rows[1..];
        }
      }
    }
  }
}
