/** The contact-request table and the mail delivered by the backend, changed by the two
    endpoints that write: creating a request (with its notification) and marking one as
    viewed. Every endpoint requires an authenticated caller. */
module RequestLedger {
  import opened Common
  import opened Accounts
  import opened Tables
  import opened RequestModels
  import opened RequestViews
  import opened Signals
  import PitchModels
  import PostModels

  /** The table's constraints: unique ids, and no request refers to both a pitch and a post. */
  predicate WellFormedTable(requests: seq<ContactRequest>) {
    && UniqueKeys(requests, RequestId)
    && forall r :: r in requests ==> !(r.pitch.Some? && r.investor_post.Some?)
  }

  /** Storing a new request that refers to at most one of pitch and post keeps the table
      well formed, and when its clock reading is no earlier than the newest row, in order. */
  lemma AppendKeepsWellFormed(requests: seq<ContactRequest>, r: ContactRequest)
    requires WellFormedTable(requests) && FindRequest(requests, r.id).None?
    requires !(r.pitch.Some? && r.investor_post.Some?)
    ensures WellFormedTable(requests + [r])
    ensures Ascending(requests, CreatedAt) && (requests == [] || requests[|requests| - 1].created_at <= r.created_at) ==>
      Ascending(requests + [r], CreatedAt)
  {
    UniqueKeysAppend(requests, r, RequestId);
    if Ascending(requests, CreatedAt) && (requests == [] || requests[|requests| - 1].created_at <= r.created_at) {
      AscendingAppend(requests, r, CreatedAt);
    }
  }

  /** In a well-formed table no participant sees a request between two different users in
      both boxes. */
  lemma NoRequestInBothBoxes(requests: seq<ContactRequest>, u: User, r: ContactRequest)
    requires WellFormedTable(requests) && r in requests && r.developer.id != r.investor.id
    ensures !(Listed(r, u, Some("sent")) && Listed(r, u, None))
  {
    if OneReference(r) {
      BoxesFollowDirection(r, u);
    }
  }

  /** Deleting a pitch or a post keeps the table well formed. */
  lemma DetachKeepsWellFormed(requests: seq<ContactRequest>, ref: Id)
    requires WellFormedTable(requests)
    ensures WellFormedTable(DetachPitch(requests, ref))
    ensures WellFormedTable(DetachPost(requests, ref))
  {
    forall r | r in DetachPitch(requests, ref) ensures !(r.pitch.Some? && r.investor_post.Some?) {
      var i :| 0 <= i < |requests| && DetachPitch(requests, ref)[i] == r;
      assert requests[i] in requests;
    }
    forall r | r in DetachPost(requests, ref) ensures !(r.pitch.Some? && r.investor_post.Some?) {
      var i :| 0 <= i < |requests| && DetachPost(requests, ref)[i] == r;
      assert requests[i] in requests;
    }
  }

  /** The request `id` exists and lies in the caller's selected box: what `get_object`
      finds through `get_queryset`. */
  predicate Visible(requests: seq<ContactRequest>, u: User, box: Option<string>, id: Id) {
    FindRequest(requests, id).Some? && Listed(requests[FindRequest(requests, id).value], u, box)
  }

  class Ledger {
    var requests: seq<ContactRequest>
    /** The e-mails the mail backend delivered, oldest first; a failed delivery leaves no trace. */
    var outbox: seq<Email>

    /** The table's constraints, and rows in the order they were created. */
    ghost predicate Valid()
      reads this
    {
      WellFormedTable(requests) && Ascending(requests, CreatedAt)
    }

    constructor ()
      ensures Valid() && requests == [] && outbox == []
    {
      requests := [];
      outbox := [];
    }

    /** `create`: validation and direction as `Build` decides them, the row stored, then the
        `post_save` receiver. A failed delivery (`delivered` false) is swallowed: the
        request is created all the same and only the e-mail is missing. The clock does not
        run backwards: `now` is no earlier than the newest row. */
    method Create(caller: Caller, input: RequestInput, pitches: seq<PitchModels.Pitch>,
                  posts: seq<PostModels.InvestorPost>, id: Id, now: Timestamp, from: string,
                  delivered: bool) returns (r: Result<ContactRequest>)
      requires Valid()
      requires requests == [] || requests[|requests| - 1].created_at <= now
      modifies this
      ensures Valid()
      ensures caller.Anonymous? ==> r == Err(NotAuthenticated) && requests == old(requests) && outbox == old(outbox)
      ensures caller.Authenticated? && Build(caller.user, input, pitches, posts, id, now).Err? ==>
        r == Build(caller.user, input, pitches, posts, id, now) && requests == old(requests) && outbox == old(outbox)
      ensures caller.Authenticated? && Build(caller.user, input, pitches, posts, id, now).Ok? && FindRequest(old(requests), id).Some? ==>
        r == Err(ServerError) && requests == old(requests) && outbox == old(outbox)
      ensures caller.Authenticated? && Build(caller.user, input, pitches, posts, id, now).Ok? && FindRequest(old(requests), id).None? ==>
        && r == Build(caller.user, input, pitches, posts, id, now)
        && requests == old(requests) + [r.value]
        && outbox == old(outbox) + (if delivered && !Throttled(old(requests), r.value, now) then [Compose(r.value, from)] else [])
    {
      if caller.Anonymous? {
        return Err(NotAuthenticated);
      }
      var built := Build(caller.user, input, pitches, posts, id, now);
      if built.Err? {
        return built;
      }
      if FindRequest(requests, id).Some? {
        return Err(ServerError);
      }
      var instance := built.value;
      BuildDirection(caller.user, input, pitches, posts, id, now);
      AppendKeepsWellFormed(requests, instance);
      requests := requests + [instance];
      OwnRequestNeverCounts(old(requests), instance, now);
      var mail := Notification(true, instance, requests, now, from);
      if mail.Some? && delivered {
        outbox := outbox + [mail.value];
      }
      r := built;
    }

    /** `mark_viewed`: 404 unless the request is in the caller's selected box; otherwise its
        `viewed` flag is set and nothing else changes. The save that follows is an update,
        on which the receiver sends nothing. */
    method MarkViewed(caller: Caller, box: Option<string>, id: Id) returns (r: Result<Reply>)
      requires Valid()
      modifies this
      ensures Valid() && outbox == old(outbox)
      ensures caller.Anonymous? ==> r == Err(NotAuthenticated) && requests == old(requests)
      ensures caller.Authenticated? && !Visible(old(requests), caller.user, box, id) ==>
        r == Err(NotFound) && requests == old(requests)
      ensures caller.Authenticated? && Visible(old(requests), caller.user, box, id) ==>
        var i := FindRequest(old(requests), id).value;
        && r == Ok(Reply(200, "marked as viewed"))
        && requests == old(requests)[i := old(requests)[i].(viewed := true)]
      ensures forall x :: FindRequest(requests, x) == FindRequest(old(requests), x)
    {
      if caller.Anonymous? {
        return Err(NotAuthenticated);
      }
      if !Visible(requests, caller.user, box, id) {
        return Err(NotFound);
      }
      var i := FindRequest(requests, id).value;
      var updated := requests[i := requests[i].(viewed := true)];
      forall x ensures FindRequest(updated, x) == FindRequest(requests, x) {
        IndexOfSameKeys(updated, requests, RequestId, x);
      }
      forall x | x in updated ensures !(x.pitch.Some? && x.investor_post.Some?) {
        var j :| 0 <= j < |updated| && updated[j] == x;
        assert requests[j] in requests;
      }
      assert forall k :: 0 <= k < |updated| ==> CreatedAt(updated[k]) == CreatedAt(requests[k]);
      requests := updated;
      r := Ok(Reply(200, "marked as viewed"));
    }
  }

  /** Marking twice is marking once: both calls succeed with the same reply, and the second
      leaves the table as the first left it and sends nothing. */
  method MarkViewedIsIdempotent(ledger: Ledger, caller: User, box: Option<string>, id: Id)
    returns (first: Result<Reply>, second: Result<Reply>, afterFirst: seq<ContactRequest>)
    requires ledger.Valid() && Visible(ledger.requests, caller, box, id)
    modifies ledger
    ensures ledger.Valid()
    ensures first == second == Ok(Reply(200, "marked as viewed"))
    ensures var i := FindRequest(old(ledger.requests), id).value;
      afterFirst == old(ledger.requests)[i := old(ledger.requests)[i].(viewed := true)]
    ensures ledger.requests == afterFirst && ledger.outbox == old(ledger.outbox)
  {
    first := ledger.MarkViewed(Authenticated(caller), box, id);
    afterFirst := ledger.requests;
    second := ledger.MarkViewed(Authenticated(caller), box, id);
  }
}
