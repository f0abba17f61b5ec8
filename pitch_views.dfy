/** The pitch endpoints: creation, the view counter and the save / unsave toggle, over the
    two tables held by a `PitchStore`. Every endpoint requires an authenticated caller
    (`IsAuthenticated`) and refuses the anonymous user with 401. */
module PitchViews {
  import opened Common
  import opened Accounts
  import opened Bookmarks
  import opened PitchModels
  import opened Tables

  /** Reply of the save and unsave endpoints: status, `detail` and the `saved` flag. */
  datatype SaveReply = SaveReply(status: int, detail: string, saved: bool)

  class PitchStore {
    var pitches: seq<Pitch>
    var saved: seq<SavedPitch>

    ghost predicate Valid()
      reads this
    {
      Consistent(pitches, saved)
    }

    constructor ()
      ensures Valid() && pitches == [] && saved == []
    {
      pitches := [];
      saved := [];
    }

    /** `PitchViewSet.create`: 401 for the anonymous user; otherwise the serializer validates
        the input, then the row is stored with the caller as developer. A clash of the
        generated id is an integrity error. */
    method Create(caller: Caller, input: PitchInput, id: Id, now: Timestamp) returns (r: Result<Pitch>)
      requires Valid()
      modifies this
      ensures Valid() && saved == old(saved)
      ensures caller.Anonymous? ==> r == Err(NotAuthenticated) && pitches == old(pitches)
      ensures caller.Authenticated? && !Admissible(input) ==> r == Err(BadRequest) && pitches == old(pitches)
      ensures caller.Authenticated? && Admissible(input) && Find(old(pitches), id).Some? ==>
        r == Err(ServerError) && pitches == old(pitches)
      ensures caller.Authenticated? && Admissible(input) && Find(old(pitches), id).None? ==>
        && r == Ok(NewPitch(id, caller.user, input, now))
        && pitches == old(pitches) + [r.value]
    {
      if caller.Anonymous? {
        return Err(NotAuthenticated);
      }
      if !Admissible(input) {
        return Err(BadRequest);
      }
      if Find(pitches, id).Some? {
        return Err(ServerError);
      }
      var p := NewPitch(id, caller.user, input, now);
      UniqueKeysAppend(pitches, p, PitchId);
      forall b | b in saved ensures Find(pitches + [p], b.item).Some? {
        IndexOfAppend(pitches, p, PitchId, b.item);
      }
      pitches := pitches + [p];
      r := Ok(p);
    }

    /** `PitchViewSet.add_view`: 401 for the anonymous user, 404 for an unknown pitch;
        otherwise one more view, and the reply carries the new count. Nothing else changes. */
    method AddView(caller: Caller, id: Id) returns (r: Result<int>)
      requires Valid()
      modifies this
      ensures Valid() && saved == old(saved)
      ensures caller.Anonymous? ==> r == Err(NotAuthenticated) && pitches == old(pitches)
      ensures caller.Authenticated? && Find(old(pitches), id).None? ==> r == Err(NotFound) && pitches == old(pitches)
      ensures caller.Authenticated? && Find(old(pitches), id).Some? ==>
        var i := Find(old(pitches), id).value;
        && r == Ok(old(pitches)[i].views + 1)
        && pitches == old(pitches)[i := old(pitches)[i].(views := old(pitches)[i].views + 1)]
    {
      if caller.Anonymous? {
        return Err(NotAuthenticated);
      }
      var found := Find(pitches, id);
      if found.None? {
        return Err(NotFound);
      }
      var i := found.value;
      var updated := pitches[i := pitches[i].(views := pitches[i].views + 1)];
      forall x ensures Find(updated, x) == Find(pitches, x) {
        IndexOfSameKeys(updated, pitches, PitchId, x);
      }
      pitches := updated;
      r := Ok(pitches[i].views);
    }

    /** `SavePitchView.create`: 401 for the anonymous user, 404 for an unknown pitch;
        otherwise get-or-create of the (caller, pitch) row, 201 when it was created and 200
        when it already existed. */
    method Save(caller: Caller, pitchId: Id, now: Timestamp) returns (r: Result<SaveReply>)
      requires Valid()
      modifies this
      ensures Valid() && pitches == old(pitches)
      ensures caller.Anonymous? ==> r == Err(NotAuthenticated) && saved == old(saved)
      ensures caller.Authenticated? && Find(old(pitches), pitchId).None? ==> r == Err(NotFound) && saved == old(saved)
      ensures caller.Authenticated? && Find(old(pitches), pitchId).Some? && IsSaved(old(saved), caller.user.id, pitchId) ==>
        r == Ok(SaveReply(200, "Already saved", true)) && saved == old(saved)
      ensures caller.Authenticated? && Find(old(pitches), pitchId).Some? && !IsSaved(old(saved), caller.user.id, pitchId) ==>
        && r == Ok(SaveReply(201, "Saved", true))
        && saved == old(saved) + [Bookmark(caller.user.id, pitchId, now)]
        && Count(saved, pitchId) == Count(old(saved), pitchId) + 1
      ensures r.Ok? ==> IsSaved(saved, caller.user.id, pitchId)
    {
      if caller.Anonymous? {
        return Err(NotAuthenticated);
      }
      var user := caller.user;
      if Find(pitches, pitchId).None? {
        return Err(NotFound);
      }
      if IsSaved(saved, user.id, pitchId) {
        return Ok(SaveReply(200, "Already saved", true));
      }
      var b := Bookmark(user.id, pitchId, now);
      UniqueAppend(saved, b);
      CountAppend(saved, b, pitchId);
      saved := saved + [b];
      assert Saves(saved[|saved| - 1], user.id, pitchId);
      r := Ok(SaveReply(201, "Saved", true));
    }

    /** `SavePitchView.destroy`: 401 for the anonymous user, 404 for an unknown pitch;
        otherwise the (caller, pitch) row is deleted if present ("Removed") and nothing
        changes if absent ("Not saved"); both 200. */
    method Unsave(caller: Caller, pitchId: Id) returns (r: Result<SaveReply>)
      requires Valid()
      modifies this
      ensures Valid() && pitches == old(pitches)
      ensures caller.Anonymous? ==> r == Err(NotAuthenticated) && saved == old(saved)
      ensures caller.Authenticated? && Find(old(pitches), pitchId).None? ==> r == Err(NotFound) && saved == old(saved)
      ensures caller.Authenticated? && Find(old(pitches), pitchId).Some? && !IsSaved(old(saved), caller.user.id, pitchId) ==>
        r == Ok(SaveReply(200, "Not saved", false)) && saved == old(saved)
      ensures caller.Authenticated? && Find(old(pitches), pitchId).Some? && IsSaved(old(saved), caller.user.id, pitchId) ==>
        && r == Ok(SaveReply(200, "Removed", false))
        && saved == RemoveAt(old(saved), Lookup(old(saved), caller.user.id, pitchId).value)
        && Count(saved, pitchId) == Count(old(saved), pitchId) - 1
      ensures r.Ok? ==> !IsSaved(saved, caller.user.id, pitchId)
    {
      if caller.Anonymous? {
        return Err(NotAuthenticated);
      }
      var user := caller.user;
      if Find(pitches, pitchId).None? {
        return Err(NotFound);
      }
      var found := Lookup(saved, user.id, pitchId);
      if found.None? {
        return Ok(SaveReply(200, "Not saved", false));
      }
      var k := found.value;
      UniqueRemoveAt(saved, k);
      CountRemoveAt(saved, k, pitchId);
      forall b | b in RemoveAt(saved, k) ensures b in saved {
      }
      saved := RemoveAt(saved, k);
      r := Ok(SaveReply(200, "Removed", false));
    }
  }

  /** `SavedListView.list`: the caller's saved rows, each resolving to an existing pitch. */
  lemma SavedListResolves(pitches: seq<Pitch>, saved: seq<SavedPitch>, investor: Id)
    requires Consistent(pitches, saved)
    ensures forall b :: b in RowsOf(saved, investor) <==> b in saved && b.user == investor
    ensures forall b :: b in RowsOf(saved, investor) ==> Find(pitches, b.item).Some?
  {
  }

  /** Saving twice is saving once: 201 then 200, with one row added. Unsaving twice answers
      "Removed" then "Not saved" and gives back the table the caller started from. */
  method SaveIsIdempotent(store: PitchStore, caller: User, pitchId: Id, now: Timestamp)
    returns (first: Result<SaveReply>, second: Result<SaveReply>, removed: Result<SaveReply>,
             again: Result<SaveReply>, afterSaves: seq<SavedPitch>)
    requires store.Valid() && Find(store.pitches, pitchId).Some?
    requires !IsSaved(store.saved, caller.id, pitchId)
    modifies store
    ensures store.Valid()
    ensures first == Ok(SaveReply(201, "Saved", true)) && second == Ok(SaveReply(200, "Already saved", true))
    ensures removed == Ok(SaveReply(200, "Removed", false)) && again == Ok(SaveReply(200, "Not saved", false))
    ensures afterSaves == old(store.saved) + [Bookmark(caller.id, pitchId, now)]
    ensures store.saved == old(store.saved) && store.pitches == old(store.pitches)
  {
    first := store.Save(Authenticated(caller), pitchId, now);
    second := store.Save(Authenticated(caller), pitchId, now);
    afterSaves := store.saved;
    SaveThenUnsaveRestores(old(store.saved), Bookmark(caller.id, pitchId, now));
    removed := store.Unsave(Authenticated(caller), pitchId);
    again := store.Unsave(Authenticated(caller), pitchId);
  }
}
