/** `ContactRequestViewSet`: which requests a user sees in the "sent" and "inbox" boxes, and
    how a new request's direction follows from what it refers to. */
module RequestViews {
  import opened Common
  import opened Accounts
  import opened Tables
  import opened RequestModels
  import PitchModels
  import PostModels

  // ---------------------------------------------------------------------------
  // Mailboxes
  // ---------------------------------------------------------------------------

  /** The base query: the user is the request's developer or its investor. */
  predicate Involves(r: ContactRequest, u: User) {
    r.developer.id == u.id || r.investor.id == u.id
  }

  /** The user started the request: an investor writing about a pitch, or a developer
      writing about an investor post. */
  predicate InSent(r: ContactRequest, u: User) {
    (r.investor.id == u.id && r.pitch.Some?) || (r.developer.id == u.id && r.investor_post.Some?)
  }

  /** The user receives the request: the owner of the pitch or of the post it is about. */
  predicate InInbox(r: ContactRequest, u: User) {
    (r.developer.id == u.id && r.pitch.Some?) || (r.investor.id == u.id && r.investor_post.Some?)
  }

  /** `box` is the query parameter; only the exact value "sent" selects the sent box, and
      any other value, or none, selects the inbox. */
  predicate Listed(r: ContactRequest, u: User, box: Option<string>) {
    Involves(r, u) && (if box == Some("sent") then InSent(r, u) else InInbox(r, u))
  }

  function Keep(u: User, box: Option<string>): ContactRequest -> bool {
    r => Listed(r, u, box)
  }

  /** `get_queryset`: the selected box, newest first. */
  function Mailbox(requests: seq<ContactRequest>, u: User, box: Option<string>): (r: seq<ContactRequest>)
    ensures forall x :: x in r <==> x in requests && Listed(x, u, box)
  {
    Reverse(Filter(requests, Keep(u, box)))
  }

  /** Every listed request involves the caller, the sent box holds exactly the requests the
      caller started, and every other box value gives the inbox. */
  lemma MailboxSound(requests: seq<ContactRequest>, u: User, box: Option<string>, r: ContactRequest)
    requires r in requests
    ensures r in Mailbox(requests, u, box) ==> r.developer.id == u.id || r.investor.id == u.id
    ensures box == Some("sent") ==> (r in Mailbox(requests, u, box) <==>
      (r.investor.id == u.id && r.pitch.Some?) || (r.developer.id == u.id && r.investor_post.Some?))
    ensures box != Some("sent") ==> (r in Mailbox(requests, u, box) <==>
      (r.developer.id == u.id && r.pitch.Some?) || (r.investor.id == u.id && r.investor_post.Some?))
  {
  }

  /** When requests were stored as time went on, each box is newest first. */
  lemma MailboxNewestFirst(requests: seq<ContactRequest>, u: User, box: Option<string>)
    requires Ascending(requests, CreatedAt)
    ensures Descending(Mailbox(requests, u, box), CreatedAt)
  {
    NewestFirst(requests, Keep(u, box), CreatedAt);
  }

  /** The request is about exactly one pitch or exactly one post. */
  predicate OneReference(r: ContactRequest) {
    r.pitch.Some? != r.investor_post.Some?
  }

  /** Who started the request: the investor for a pitch, the developer for a post. */
  function Sender(r: ContactRequest): User {
    if r.pitch.Some? then r.investor else r.developer
  }

  function Receiver(r: ContactRequest): User {
    if r.pitch.Some? then r.developer else r.investor
  }

  /** For a request between two different users about one thing, the sent box holds it for
      its sender only and the inbox for its receiver only. */
  lemma BoxesFollowDirection(r: ContactRequest, u: User)
    requires OneReference(r) && r.developer.id != r.investor.id
    ensures Listed(r, u, Some("sent")) <==> u.id == Sender(r).id
    ensures forall box :: box != Some("sent") ==> (Listed(r, u, box) <==> u.id == Receiver(r).id)
  {
  }

  /** Each participant sees such a request in exactly one box, and the two participants see
      it in opposite boxes. */
  lemma OneBoxEach(r: ContactRequest, u: User)
    requires OneReference(r) && r.developer.id != r.investor.id && Involves(r, u)
    ensures Listed(r, u, Some("sent")) != Listed(r, u, None)
    ensures Listed(r, r.developer, Some("sent")) == Listed(r, r.investor, None)
    ensures Listed(r, r.investor, Some("sent")) == Listed(r, r.developer, None)
  {
    BoxesFollowDirection(r, u);
    BoxesFollowDirection(r, r.developer);
    BoxesFollowDirection(r, r.investor);
  }

  /** A request whose pitch or post was deleted and that refers to nothing any more is in
      nobody's box. */
  /** A request whose developer and investor are the same user, about a pitch or a post, is
      in both of that user's boxes. */
  lemma SelfRequestInBothBoxes(r: ContactRequest)
    requires r.developer.id == r.investor.id && (r.pitch.Some? || r.investor_post.Some?)
    ensures Listed(r, r.developer, Some("sent")) && Listed(r, r.developer, None)
  {
  }

  lemma DetachedIsInNoBox(r: ContactRequest, u: User, box: Option<string>)
    requires r.pitch.None? && r.investor_post.None?
    ensures !Listed(r, u, box)
  {
  }

  // ---------------------------------------------------------------------------
  // Creation
  // ---------------------------------------------------------------------------

  /** The fields `ContactRequestCreateSerializer` reads; `None` when omitted. An empty
      reference counts as omitted, as the related fields turn "" into null. */
  datatype RequestInput = RequestInput(
    pitch: Option<Id>,
    investor_post: Option<Id>,
    message: string,
    meeting_link: Option<string>,
    preference: Option<string>,
    scheduled_start_time: Option<Timestamp>,
    scheduled_end_time: Option<Timestamp>)

  /** What the serializer accepts: a non-blank message, a preference that is omitted or one
      of the choices, and references only to rows that exist. */
  predicate Admissible(input: RequestInput, pitches: seq<PitchModels.Pitch>, posts: seq<PostModels.InvestorPost>) {
    && input.message != ""
    && (input.preference.Some? ==> ParsePreference(input.preference.value).Some?)
    && (Given(input.pitch) ==> PitchModels.Find(pitches, input.pitch.value).Some?)
    && (Given(input.investor_post) ==> PostModels.Find(posts, input.investor_post.value).Some?)
  }

  /** The preference stored: the one sent, else the model's default "email". */
  function PreferenceOf(input: RequestInput): (p: Preference)
    requires input.preference.Some? ==> ParsePreference(input.preference.value).Some?
    ensures input.preference.None? ==> p == ByEmail && p.Code() == "email"
    ensures input.preference.Some? ==> p.Code() == input.preference.value
  {
    if input.preference.Some? then ParsePreference(input.preference.value).value else ByEmail
  }

  function PostReference(input: RequestInput): Option<Id> {
    if Given(input.investor_post) then input.investor_post else None
  }

  /** `perform_create` as written: the pitch branch wins, and the serializer's own value of
      `investor_post` is stored as well when both references were sent. Neither reference
      raises an exception. */
  function BuildAsWritten(caller: User, input: RequestInput, pitches: seq<PitchModels.Pitch>,
                          posts: seq<PostModels.InvestorPost>, id: Id, now: Timestamp): (r: Result<ContactRequest>)
    ensures r.Err? <==> !Admissible(input, pitches, posts) || (!Given(input.pitch) && !Given(input.investor_post))
    ensures r.Ok? && Given(input.pitch) && Given(input.investor_post) ==> r.value.pitch.Some? && r.value.investor_post.Some?
    ensures Admissible(input, pitches, posts) && Given(input.pitch) ==>
      var p := pitches[PitchModels.Find(pitches, input.pitch.value).value];
      && r.Ok? && r.value.investor == caller && r.value.developer == p.developer
      && r.value.pitch == Some(input.pitch.value) && r.value.investor_post == PostReference(input)
    ensures Admissible(input, pitches, posts) && !Given(input.pitch) && Given(input.investor_post) ==>
      var p := posts[PostModels.Find(posts, input.investor_post.value).value];
      && r.Ok? && r.value.developer == caller && r.value.investor == p.investor
      && r.value.investor_post == Some(input.investor_post.value) && r.value.pitch.None?
    ensures r.Ok? ==>
      && r.value.id == id && !r.value.viewed && r.value.message == input.message
      && r.value.preference == PreferenceOf(input) && r.value.created_at == now
  {
    if !Admissible(input, pitches, posts) then
      Err(BadRequest)
    else if Given(input.pitch) then
      var p := pitches[PitchModels.Find(pitches, input.pitch.value).value];
      Ok(NewRequest(id, p.developer, caller, Some(p.id), PostReference(input), input.message,
                    input.meeting_link, PreferenceOf(input), now,
                    input.scheduled_start_time, input.scheduled_end_time))
    else if Given(input.investor_post) then
      var p := posts[PostModels.Find(posts, input.investor_post.value).value];
      Ok(NewRequest(id, caller, p.investor, None, Some(p.id), input.message,
                    input.meeting_link, PreferenceOf(input), now,
                    input.scheduled_start_time, input.scheduled_end_time))
    else
      Err(ServerError)
  }

  /** `perform_create` corrected: a request refers to exactly one pitch or post, so sending
      both references is refused like any other invalid input. */
  function Build(caller: User, input: RequestInput, pitches: seq<PitchModels.Pitch>,
                 posts: seq<PostModels.InvestorPost>, id: Id, now: Timestamp): (r: Result<ContactRequest>)
    ensures r.Ok? ==> OneReference(r.value)
  {
    if !Admissible(input, pitches, posts) || (Given(input.pitch) && Given(input.investor_post)) then
      Err(BadRequest)
    else if Given(input.pitch) then
      var p := pitches[PitchModels.Find(pitches, input.pitch.value).value];
      Ok(NewRequest(id, p.developer, caller, Some(p.id), None, input.message,
                    input.meeting_link, PreferenceOf(input), now,
                    input.scheduled_start_time, input.scheduled_end_time))
    else if Given(input.investor_post) then
      var p := posts[PostModels.Find(posts, input.investor_post.value).value];
      Ok(NewRequest(id, caller, p.investor, None, Some(p.id), input.message,
                    input.meeting_link, PreferenceOf(input), now,
                    input.scheduled_start_time, input.scheduled_end_time))
    else
      Err(ServerError)
  }

  /** The correction changes nothing unless both references are sent. */
  lemma BuildAgreesUnlessBoth(caller: User, input: RequestInput, pitches: seq<PitchModels.Pitch>,
                              posts: seq<PostModels.InvestorPost>, id: Id, now: Timestamp)
    requires !(Given(input.pitch) && Given(input.investor_post))
    ensures Build(caller, input, pitches, posts, id, now) == BuildAsWritten(caller, input, pitches, posts, id, now)
  {
  }

  /** The outcomes of creation: 400 for an input the serializer refuses or that sends both
      references, 500 when neither is sent; with a pitch the caller is the investor and the
      pitch's developer the other party, with a post the caller is the developer and the
      post's investor the other party. */
  lemma BuildDirection(caller: User, input: RequestInput, pitches: seq<PitchModels.Pitch>,
                       posts: seq<PostModels.InvestorPost>, id: Id, now: Timestamp)
    ensures var r := Build(caller, input, pitches, posts, id, now);
      && (!Admissible(input, pitches, posts) ==> r == Err(BadRequest))
      && (Given(input.pitch) && Given(input.investor_post) ==> r == Err(BadRequest))
      && (Admissible(input, pitches, posts) && !Given(input.pitch) && !Given(input.investor_post) ==> r == Err(ServerError))
      && (Admissible(input, pitches, posts) && Given(input.pitch) && !Given(input.investor_post) ==>
            var p := pitches[PitchModels.Find(pitches, input.pitch.value).value];
            && r.Ok? && r.value.investor == caller && r.value.developer == p.developer
            && r.value.pitch == Some(input.pitch.value) && r.value.investor_post.None?)
      && (Admissible(input, pitches, posts) && !Given(input.pitch) && Given(input.investor_post) ==>
            var p := posts[PostModels.Find(posts, input.investor_post.value).value];
            && r.Ok? && r.value.developer == caller && r.value.investor == p.investor
            && r.value.investor_post == Some(input.investor_post.value) && r.value.pitch.None?)
      && (r.Ok? ==> r.value.id == id && !r.value.viewed && r.value.message == input.message && r.value.created_at == now)
      && (r.Ok? ==> r.value.preference == PreferenceOf(input) && r.value.meeting_link == input.meeting_link)
      && (r.Ok? ==> r.value.scheduled_start_time == input.scheduled_start_time && r.value.scheduled_end_time == input.scheduled_end_time)
  {
    if Admissible(input, pitches, posts) && Given(input.pitch) && !Given(input.investor_post) {
      var k := PitchModels.Find(pitches, input.pitch.value).value;
      assert pitches[k].id == input.pitch.value;
    } else if Admissible(input, pitches, posts) && !Given(input.pitch) && Given(input.investor_post) {
      var k := PostModels.Find(posts, input.investor_post.value).value;
      assert posts[k].id == input.investor_post.value;
    }
  }

  /** A created request is in its creator's sent box and in the other party's inbox, and in
      neither party's other box, when the two parties differ. */
  lemma CreatorSeesSent(caller: User, input: RequestInput, pitches: seq<PitchModels.Pitch>,
                        posts: seq<PostModels.InvestorPost>, id: Id, now: Timestamp)
    requires Build(caller, input, pitches, posts, id, now).Ok?
    requires var r := Build(caller, input, pitches, posts, id, now).value; r.developer.id != r.investor.id
    ensures var r := Build(caller, input, pitches, posts, id, now).value;
      && Sender(r) == caller
      && Listed(r, caller, Some("sent")) && !Listed(r, caller, None)
      && Listed(r, Receiver(r), None) && !Listed(r, Receiver(r), Some("sent"))
  {
    var r := Build(caller, input, pitches, posts, id, now).value;
    BuildDirection(caller, input, pitches, posts, id, now);
    BoxesFollowDirection(r, caller);
    BoxesFollowDirection(r, Receiver(r));
  }

  /** As written, a request sent with both a pitch and a post reference is in the pitch
      developer's sent box and inbox at once. */
  lemma BothReferencesShowTwice(caller: User, input: RequestInput, pitches: seq<PitchModels.Pitch>,
                                posts: seq<PostModels.InvestorPost>, id: Id, now: Timestamp)
    requires Admissible(input, pitches, posts) && Given(input.pitch) && Given(input.investor_post)
    ensures var r := BuildAsWritten(caller, input, pitches, posts, id, now);
      && r.Ok? && !OneReference(r.value)
      && r.value.investor == caller
      && r.value.developer == pitches[PitchModels.Find(pitches, input.pitch.value).value].developer
      && Listed(r.value, r.value.developer, Some("sent")) && Listed(r.value, r.value.developer, None)
  {
  }
}
