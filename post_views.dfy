/** `InvestorPostViewSet`: its permission classes, the filters of its listing and the
    save / unsave actions that keep `saved_count` next to the `SavedInvestorPost` table. */
module PostViews {
  import opened Common
  import opened Accounts
  import opened Text
  import opened Tables
  import opened Bookmarks
  import opened PostModels

  // ---------------------------------------------------------------------------
  // Permissions
  // ---------------------------------------------------------------------------

  datatype Method = GET | HEAD | OPTIONS | POST | PUT | PATCH | DELETE

  /** `permissions.SAFE_METHODS`. */
  predicate IsSafe(m: Method) {
    m == GET || m == HEAD || m == OPTIONS
  }

  /** The view set's actions; the last three are the extra `save`, `unsave` and `saved`. */
  datatype Action = ListPosts | RetrievePost | CreatePost | UpdatePost | PartialUpdatePost | DestroyPost | SavePost | UnsavePost | SavedPosts

  /** The HTTP method the router binds to each action. */
  function MethodOf(a: Action): Method {
    match a
    case ListPosts => GET
    case RetrievePost => GET
    case CreatePost => POST
    case UpdatePost => PUT
    case PartialUpdatePost => PATCH
    case DestroyPost => DELETE
    case SavePost => POST
    case UnsavePost => DELETE
    case SavedPosts => GET
  }

  datatype Permission = IsInvestorOrReadOnly | IsOwnerOrReadOnly | AllowAny

  /** `get_permissions`. It decides for every action, so the `permission_classes` given to the
      three extra actions by their decorators are never consulted. */
  function PermissionFor(a: Action): Permission {
    if a == CreatePost then IsInvestorOrReadOnly
    else if a in {UpdatePost, PartialUpdatePost, DestroyPost} then IsOwnerOrReadOnly
    else AllowAny
  }

  /** `has_permission`, checked before the handler runs. */
  predicate HasPermission(p: Permission, m: Method, caller: Caller) {
    match p
    case IsInvestorOrReadOnly => IsSafe(m) || (caller.Authenticated? && caller.user.role == Investor)
    case IsOwnerOrReadOnly => true
    case AllowAny => true
  }

  /** `has_object_permission`, checked when `get_object` fetches the post. */
  predicate HasObjectPermission(p: Permission, m: Method, caller: Caller, post: InvestorPost) {
    match p
    case IsInvestorOrReadOnly => true
    case IsOwnerOrReadOnly => IsSafe(m) || IsUser(caller, post.investor)
    case AllowAny => true
  }

  /** Whether the caller may run the action; `post` is the object of a detail action. */
  predicate Allowed(a: Action, caller: Caller, post: Option<InvestorPost>) {
    && HasPermission(PermissionFor(a), MethodOf(a), caller)
    && (post.Some? ==> HasObjectPermission(PermissionFor(a), MethodOf(a), caller, post.value))
  }

  /** The framework's refusal: 401 for the anonymous user, 403 otherwise. */
  function Denial(caller: Caller): (e: Error)
    ensures e.Status() == (if caller.Anonymous? then 401 else 403)
  {
    if caller.Anonymous? then NotAuthenticated else Forbidden
  }

  /** Reading is open to everybody, signed in or not. */
  lemma ReadsAreOpen(caller: Caller, post: Option<InvestorPost>)
    ensures Allowed(ListPosts, caller, None)
    ensures Allowed(RetrievePost, caller, post)
  {
  }

  /** Creating needs an authenticated investor, and nothing else. */
  lemma CreateNeedsInvestor(caller: Caller)
    ensures Allowed(CreatePost, caller, None) <==> caller.Authenticated? && caller.user.role == Investor
  {
  }

  /** Updating and deleting need the post's owner, whatever the caller's role. */
  lemma ChangesNeedOwner(a: Action, caller: Caller, post: InvestorPost)
    requires a == UpdatePost || a == PartialUpdatePost || a == DestroyPost
    ensures Allowed(a, caller, Some(post)) <==> caller.Authenticated? && caller.user.id == post.investor.id
  {
  }

  /** The save, unsave and saved actions fall to `AllowAny`: no permission check refuses an
      anonymous caller there. */
  lemma ExtraActionsAllowAny(caller: Caller, post: Option<InvestorPost>)
    ensures Allowed(SavePost, caller, post) && Allowed(UnsavePost, caller, post)
    ensures Allowed(SavedPosts, caller, None)
  {
  }

  // ---------------------------------------------------------------------------
  // Listing
  // ---------------------------------------------------------------------------

  /** The query parameters of the listing; a missing parameter is `None`. */
  datatype Query = Query(
    investor: Option<string>,
    search: Option<string>,
    tags: Option<string>,
    stage: Option<string>,
    location: Option<string>)

  /** The owner filter: `me` means the caller (the anonymous user owns nothing), any other
      value is an investor id. */
  predicate MatchesInvestor(p: InvestorPost, investor: Option<string>, caller: Caller) {
    !Given(investor) ||
    (if investor.value == "me" then IsUser(caller, p.investor) else p.investor.id == investor.value)
  }

  /** `encode` is the database's text form of a JSON list: the tag and stage filters are
      substring matches on that text. */
  predicate Matches(p: InvestorPost, q: Query, caller: Caller, encode: seq<string> -> string) {
    && MatchesInvestor(p, q.investor, caller)
    && (Given(q.search) ==>
          IContains(p.title, q.search.value) || IContains(p.description, q.search.value)
          || IContains(p.location, q.search.value))
    && (Given(q.tags) ==> IContains(encode(p.tags), q.tags.value))
    && (Given(q.stage) ==> IContains(encode(p.stages), q.stage.value))
    && (Given(q.location) ==> IContains(p.location, q.location.value))
  }

  function Matching(q: Query, caller: Caller, encode: seq<string> -> string): InvestorPost -> bool {
    p => Matches(p, q, caller, encode)
  }

  /** `get_queryset`: every filter that was given, conjoined, newest first. */
  function Listing(posts: seq<InvestorPost>, q: Query, caller: Caller, encode: seq<string> -> string): (r: seq<InvestorPost>)
    ensures forall p :: p in r <==> p in posts && Matches(p, q, caller, encode)
  {
    Reverse(Filter(posts, Matching(q, caller, encode)))
  }

  /** Each listed post satisfies each filter that was given, and a query that gives none
      lists the whole table. */
  lemma ListingFilters(posts: seq<InvestorPost>, q: Query, caller: Caller, encode: seq<string> -> string, p: InvestorPost)
    requires p in Listing(posts, q, caller, encode)
    ensures Given(q.investor) && q.investor.value == "me" ==> caller.Authenticated? && p.investor.id == caller.user.id
    ensures Given(q.investor) && q.investor.value != "me" ==> p.investor.id == q.investor.value
    ensures Given(q.search) ==>
      IContains(p.title, q.search.value) || IContains(p.description, q.search.value) || IContains(p.location, q.search.value)
    ensures Given(q.tags) ==> IContains(encode(p.tags), q.tags.value)
    ensures Given(q.stage) ==> IContains(encode(p.stages), q.stage.value)
    ensures Given(q.location) ==> IContains(p.location, q.location.value)
  {
  }

  lemma EmptyQueryListsAll(posts: seq<InvestorPost>, caller: Caller, encode: seq<string> -> string)
    ensures forall p :: p in posts ==> p in Listing(posts, Query(None, None, None, None, None), caller, encode)
  {
  }

  /** `investor=me` from the anonymous user lists nothing. */
  lemma AnonymousOwnsNothing(posts: seq<InvestorPost>, q: Query, encode: seq<string> -> string)
    requires q.investor == Some("me")
    ensures forall p :: p !in Listing(posts, q, Anonymous, encode)
  {
  }

  /** When posts were inserted as time went on, the listing is newest first. */
  lemma ListingNewestFirst(posts: seq<InvestorPost>, q: Query, caller: Caller, encode: seq<string> -> string)
    requires Ascending(posts, CreatedAt)
    ensures Descending(Listing(posts, q, caller, encode), CreatedAt)
  {
    NewestFirst(posts, Matching(q, caller, encode), CreatedAt);
  }

  // ---------------------------------------------------------------------------
  // The tables and the actions that change them
  // ---------------------------------------------------------------------------

  class PostStore {
    var posts: seq<InvestorPost>
    var saved: seq<SavedInvestorPost>

    /** The database's constraints, and rows in the order they were created. */
    ghost predicate Valid()
      reads this
    {
      Consistent(posts, saved) && Ascending(posts, CreatedAt)
    }

    constructor ()
      ensures Valid() && CountersMatch(posts, saved) && posts == [] && saved == []
    {
      posts := [];
      saved := [];
    }

    /** `create` with `perform_create`: the permission check, then the serializer, then the
        row stored with the caller as investor. A clash of the generated id is an integrity
        error. */
    method Create(caller: Caller, input: PostInput, id: Id, now: Timestamp) returns (r: Result<InvestorPost>)
      requires Valid()
      requires posts == [] || posts[|posts| - 1].created_at <= now
      modifies this
      ensures Valid() && saved == old(saved)
      ensures old(CountersMatch(posts, saved)) ==> CountersMatch(posts, saved)
      ensures !Allowed(CreatePost, caller, None) ==> r == Err(Denial(caller)) && posts == old(posts)
      ensures Allowed(CreatePost, caller, None) && !Admissible(input) ==> r == Err(BadRequest) && posts == old(posts)
      ensures Allowed(CreatePost, caller, None) && Admissible(input) && Find(old(posts), id).Some? ==>
        r == Err(ServerError) && posts == old(posts)
      ensures Allowed(CreatePost, caller, None) && Admissible(input) && Find(old(posts), id).None? ==>
        && r == Ok(NewPost(id, caller.user, input, now))
        && posts == old(posts) + [r.value]
    {
      if !Allowed(CreatePost, caller, None) {
        return Err(Denial(caller));
      }
      if !Admissible(input) {
        return Err(BadRequest);
      }
      if Find(posts, id).Some? {
        return Err(ServerError);
      }
      var p := NewPost(id, caller.user, input, now);
      if CountersMatch(posts, saved) {
        InsertKeepsCounters(posts, saved, p);
      }
      AscendingAppend(posts, p, CreatedAt);
      UniqueKeysAppend(posts, p, PostId);
      forall b | b in saved ensures Find(posts + [p], b.item).Some? {
        IndexOfAppend(posts, p, PostId, b.item);
      }
      posts := posts + [p];
      r := Ok(p);
    }

    /** The `save` action: 404 for an unknown post; 200 "Already saved." with nothing changed
        when the caller's row exists; otherwise one row created and the post's counter
        incremented, 201 "Post saved.". */
    method Save(caller: User, postId: Id, now: Timestamp) returns (r: Result<Reply>)
      requires Valid()
      modifies this
      ensures Valid()
      ensures old(CountersMatch(posts, saved)) ==> CountersMatch(posts, saved)
      ensures Find(old(posts), postId).None? ==> r == Err(NotFound) && posts == old(posts) && saved == old(saved)
      ensures Find(old(posts), postId).Some? && IsSaved(old(saved), caller.id, postId) ==>
        r == Ok(Reply(200, "Already saved.")) && posts == old(posts) && saved == old(saved)
      ensures Find(old(posts), postId).Some? && !IsSaved(old(saved), caller.id, postId) ==>
        var i := Find(old(posts), postId).value;
        && r == Ok(Reply(201, "Post saved."))
        && saved == old(saved) + [Bookmark(caller.id, postId, now)]
        && posts == Recount(old(posts), i, 1)
      ensures forall x :: Find(posts, x) == Find(old(posts), x)
      ensures r.Ok? ==> IsSaved(saved, caller.id, postId)
    {
      var found := Find(posts, postId);
      if found.None? {
        return Err(NotFound);
      }
      if IsSaved(saved, caller.id, postId) {
        return Ok(Reply(200, "Already saved."));
      }
      var i := found.value;
      var b := Bookmark(caller.id, postId, now);
      var updated := Recount(posts, i, 1);
      UniqueAppend(saved, b);
      RecountKeepsRows(posts, i, 1);
      if CountersMatch(posts, saved) {
        SaveKeepsCounters(posts, saved, i, b);
      }
      saved := saved + [b];
      posts := updated;
      assert Saves(saved[|saved| - 1], caller.id, postId);
      r := Ok(Reply(201, "Post saved."));
    }

    /** The `unsave` action: 404 for an unknown post; 400 "Not saved." with nothing changed
        when the caller has no row; otherwise that row deleted and the post's counter
        decremented, 204 "Post unsaved.". The 400 is a response the handler builds itself,
        with its own `detail`, so it is an `Ok` reply and not an `Err` of the framework. */
    method Unsave(caller: User, postId: Id) returns (r: Result<Reply>)
      requires Valid()
      modifies this
      ensures Valid()
      ensures old(CountersMatch(posts, saved)) ==> CountersMatch(posts, saved)
      ensures Find(old(posts), postId).None? ==> r == Err(NotFound) && posts == old(posts) && saved == old(saved)
      ensures Find(old(posts), postId).Some? && !IsSaved(old(saved), caller.id, postId) ==>
        r == Ok(Reply(400, "Not saved.")) && posts == old(posts) && saved == old(saved)
      ensures Find(old(posts), postId).Some? && IsSaved(old(saved), caller.id, postId) ==>
        var i := Find(old(posts), postId).value;
        && r == Ok(Reply(204, "Post unsaved."))
        && saved == RemoveAt(old(saved), Lookup(old(saved), caller.id, postId).value)
        && posts == Recount(old(posts), i, -1)
      ensures forall x :: Find(posts, x) == Find(old(posts), x)
      ensures !IsSaved(saved, caller.id, postId)
    {
      var found := Find(posts, postId);
      if found.None? {
        forall b | b in saved ensures !Saves(b, caller.id, postId) {
        }
        return Err(NotFound);
      }
      var row := Lookup(saved, caller.id, postId);
      if row.None? {
        return Ok(Reply(400, "Not saved."));
      }
      var i, k := found.value, row.value;
      var updated := Recount(posts, i, -1);
      UniqueRemoveAt(saved, k);
      RecountKeepsRows(posts, i, -1);
      if CountersMatch(posts, saved) {
        UnsaveKeepsCounters(posts, saved, i, k);
      }
      forall b | b in RemoveAt(saved, k) ensures b in saved {
      }
      saved := RemoveAt(saved, k);
      posts := updated;
      r := Ok(Reply(204, "Post unsaved."));
    }

    /** `destroy`: 404 for an unknown post, refusal unless the caller owns it, otherwise the
        post and its saved rows deleted, 204. */
    method Destroy(caller: Caller, postId: Id) returns (r: Result<Reply>)
      requires Valid()
      modifies this
      ensures Valid()
      ensures old(CountersMatch(posts, saved)) ==> CountersMatch(posts, saved)
      ensures Find(old(posts), postId).None? ==> r == Err(NotFound) && posts == old(posts) && saved == old(saved)
      ensures Find(old(posts), postId).Some? && !Allowed(DestroyPost, caller, Some(old(posts)[Find(old(posts), postId).value])) ==>
        r == Err(Denial(caller)) && posts == old(posts) && saved == old(saved)
      ensures r.Ok? ==> r.value == Reply(204, "") && (posts, saved) == Delete(old(posts), old(saved), postId)
      ensures r.Ok? <==> Find(old(posts), postId).Some? && IsUser(caller, old(posts)[Find(old(posts), postId).value].investor)
    {
      var found := Find(posts, postId);
      if found.None? {
        return Err(NotFound);
      }
      var post := posts[found.value];
      ChangesNeedOwner(DestroyPost, caller, post);
      if !Allowed(DestroyPost, caller, Some(post)) {
        return Err(Denial(caller));
      }
      DeleteCascades(posts, saved, postId);
      FilterAscending(posts, KeyIsNot(PostId, postId), CreatedAt);
      var (remaining, kept) := Delete(posts, saved, postId);
      posts, saved := remaining, kept;
      r := Ok(Reply(204, ""));
    }
  }

  /** The `saved` action: the caller's rows, each resolving to an existing post. */
  lemma SavedActionResolves(posts: seq<InvestorPost>, saved: seq<SavedInvestorPost>, developer: Id)
    requires Consistent(posts, saved)
    ensures forall b :: b in RowsOf(saved, developer) <==> b in saved && b.user == developer
    ensures forall b :: b in RowsOf(saved, developer) ==> Find(posts, b.item).Some?
  {
  }

  /** Saving twice is saving once: 201 then 200, with one row added and the counter one
      higher. Unsaving twice answers 204 then 400 and gives back both tables as they were. */
  method SaveUnsaveRoundTrip(store: PostStore, caller: User, postId: Id, now: Timestamp)
    returns (first: Result<Reply>, second: Result<Reply>, removed: Result<Reply>, again: Result<Reply>,
             afterSaves: seq<SavedInvestorPost>)
    requires store.Valid() && CountersMatch(store.posts, store.saved)
    requires Find(store.posts, postId).Some? && !IsSaved(store.saved, caller.id, postId)
    modifies store
    ensures store.Valid() && CountersMatch(store.posts, store.saved)
    ensures first == Ok(Reply(201, "Post saved.")) && second == Ok(Reply(200, "Already saved."))
    ensures removed == Ok(Reply(204, "Post unsaved.")) && again == Ok(Reply(400, "Not saved."))
    ensures afterSaves == old(store.saved) + [Bookmark(caller.id, postId, now)]
    ensures store.saved == old(store.saved) && store.posts == old(store.posts)
  {
    var i := Find(store.posts, postId).value;
    first := store.Save(caller, postId, now);
    second := store.Save(caller, postId, now);
    afterSaves := store.saved;
    SaveThenUnsaveRestores(old(store.saved), Bookmark(caller.id, postId, now));
    RecountUndo(old(store.posts), i, 1);
    removed := store.Unsave(caller, postId);
    again := store.Unsave(caller, postId);
  }
}
