/** The `ContactRequest` and `MeetingSummary` tables: their choice fields, their defaults
    and the effect on requests of deleting what they refer to. */
module RequestModels {
  import opened Common
  import opened Accounts
  import opened Tables

  // ---------------------------------------------------------------------------
  // Choice fields
  // ---------------------------------------------------------------------------

  /** `MEETING_STATUS_CHOICES`. */
  datatype MeetingStatus = Scheduled | InProgress | Completed | Cancelled {
    /** The stored code. */
    function Code(): string {
      match this
      case Scheduled => "scheduled"
      case InProgress => "in_progress"
      case Completed => "completed"
      case Cancelled => "cancelled"
    }
  }

  /** The choice a stored code stands for; any other text is not a valid choice. */
  function ParseStatus(code: string): (r: Option<MeetingStatus>)
    ensures r.Some? ==> r.value.Code() == code
  {
    if code == "scheduled" then Some(Scheduled)
    else if code == "in_progress" then Some(InProgress)
    else if code == "completed" then Some(Completed)
    else if code == "cancelled" then Some(Cancelled)
    else None
  }

  /** The four codes are distinct and each reads back as its own status; no other text is a
      status. */
  lemma StatusCodesRoundTrip(s: MeetingStatus, code: string)
    ensures ParseStatus(s.Code()) == Some(s)
    ensures ParseStatus(code).None? <==> code !in {"scheduled", "in_progress", "completed", "cancelled"}
  {
  }

  /** `MEETING_PLATFORM_CHOICES`. */
  datatype MeetingPlatform = GoogleMeet | Zoom | MicrosoftTeams | Phone | InPerson | Other {
    function Code(): string {
      match this
      case GoogleMeet => "google-meet"
      case Zoom => "zoom"
      case MicrosoftTeams => "microsoft-teams"
      case Phone => "phone"
      case InPerson => "in-person"
      case Other => "other"
    }
  }

  function ParsePlatform(code: string): (r: Option<MeetingPlatform>)
    ensures r.Some? ==> r.value.Code() == code
  {
    if code == "google-meet" then Some(GoogleMeet)
    else if code == "zoom" then Some(Zoom)
    else if code == "microsoft-teams" then Some(MicrosoftTeams)
    else if code == "phone" then Some(Phone)
    else if code == "in-person" then Some(InPerson)
    else if code == "other" then Some(Other)
    else None
  }

  lemma PlatformCodesRoundTrip(p: MeetingPlatform, code: string)
    ensures ParsePlatform(p.Code()) == Some(p)
    ensures ParsePlatform(code).None? <==>
      code !in {"google-meet", "zoom", "microsoft-teams", "phone", "in-person", "other"}
  {
  }

  /** The choices of `preference`. */
  datatype Preference = ByEmail | ByPhone | ByDm {
    function Code(): string {
      match this
      case ByEmail => "email"
      case ByPhone => "phone"
      case ByDm => "dm"
    }
  }

  function ParsePreference(code: string): (r: Option<Preference>)
    ensures r.Some? ==> r.value.Code() == code
  {
    if code == "email" then Some(ByEmail)
    else if code == "phone" then Some(ByPhone)
    else if code == "dm" then Some(ByDm)
    else None
  }

  lemma PreferenceCodesRoundTrip(p: Preference, code: string)
    ensures ParsePreference(p.Code()) == Some(p)
    ensures ParsePreference(code).None? <==> code !in {"email", "phone", "dm"}
  {
  }

  const DefaultTimezone := "UTC"

  // ---------------------------------------------------------------------------
  // Contact requests
  // ---------------------------------------------------------------------------

  /** A contact request row. `pitch` and `investor_post` are independent nullable
      references; nothing in the row itself says that exactly one is set. */
  datatype ContactRequest = ContactRequest(
    id: Id,
    developer: User,
    investor: User,
    pitch: Option<Id>,
    investor_post: Option<Id>,
    message: string,
    meeting_link: Option<string>,
    preference: Preference,
    viewed: bool,
    created_at: Timestamp,
    scheduled_start_time: Option<Timestamp>,
    scheduled_end_time: Option<Timestamp>,
    meeting_status: Option<MeetingStatus>,
    meeting_summary: Option<string>,
    meeting_started_at: Option<Timestamp>,
    meeting_ended_at: Option<Timestamp>,
    timezone: string,
    meeting_platform: Option<MeetingPlatform>,
    agenda: Option<string>)

  /** The row stored for the given field values, every other column at its default. */
  function NewRequest(
    id: Id, developer: User, investor: User, pitch: Option<Id>, investor_post: Option<Id>,
    message: string, meeting_link: Option<string>, preference: Preference, now: Timestamp,
    scheduled_start_time: Option<Timestamp>, scheduled_end_time: Option<Timestamp>): (r: ContactRequest)
    ensures !r.viewed && r.created_at == now
    ensures r.meeting_status == Some(Scheduled) && r.meeting_platform == Some(GoogleMeet)
    ensures r.timezone == DefaultTimezone
    ensures r.meeting_summary.None? && r.meeting_started_at.None? && r.meeting_ended_at.None? && r.agenda.None?
    ensures r.developer == developer && r.investor == investor
    ensures r.pitch == pitch && r.investor_post == investor_post && r.message == message
    ensures r.id == id && r.meeting_link == meeting_link && r.preference == preference
    ensures r.scheduled_start_time == scheduled_start_time && r.scheduled_end_time == scheduled_end_time
  {
    ContactRequest(id, developer, investor, pitch, investor_post, message, meeting_link, preference,
                   false, now, scheduled_start_time, scheduled_end_time, Some(Scheduled), None,
                   None, None, DefaultTimezone, Some(GoogleMeet), None)
  }

  function RequestId(r: ContactRequest): Id {
    r.id
  }

  function CreatedAt(r: ContactRequest): int {
    r.created_at
  }

  /** `ContactRequest.objects.get(id=id)`. */
  function FindRequest(requests: seq<ContactRequest>, id: Id): Option<nat> {
    IndexOf(requests, RequestId, id)
  }

  /** The `on_delete=SET_NULL` of `pitch`: no request refers to the deleted pitch
      afterwards, no reference appears that was not there, every other column is kept, and
      a request about another pitch or none is kept whole. */
  function DetachPitch(requests: seq<ContactRequest>, pitchId: Id): (r: seq<ContactRequest>)
    ensures |r| == |requests|
    ensures forall i :: 0 <= i < |r| ==> r[i].pitch != Some(pitchId)
    ensures forall i :: 0 <= i < |r| && r[i].pitch.Some? ==> r[i].pitch == requests[i].pitch
    ensures forall i :: 0 <= i < |r| ==> r[i].(pitch := requests[i].pitch) == requests[i]
    ensures forall i :: 0 <= i < |r| && requests[i].pitch != Some(pitchId) ==> r[i] == requests[i]
  {
    seq(|requests|, i requires 0 <= i < |requests| =>
      if requests[i].pitch == Some(pitchId) then requests[i].(pitch := None) else requests[i])
  }

  /** The `on_delete=SET_NULL` of `investor_post`: no request refers to the deleted post
      afterwards, no reference appears that was not there, every other column is kept, and
      a request about another post or none is kept whole. */
  function DetachPost(requests: seq<ContactRequest>, postId: Id): (r: seq<ContactRequest>)
    ensures |r| == |requests|
    ensures forall i :: 0 <= i < |r| ==> r[i].investor_post != Some(postId)
    ensures forall i :: 0 <= i < |r| && r[i].investor_post.Some? ==> r[i].investor_post == requests[i].investor_post
    ensures forall i :: 0 <= i < |r| ==> r[i].(investor_post := requests[i].investor_post) == requests[i]
    ensures forall i :: 0 <= i < |r| && requests[i].investor_post != Some(postId) ==> r[i] == requests[i]
  {
    seq(|requests|, i requires 0 <= i < |requests| =>
      if requests[i].investor_post == Some(postId) then requests[i].(investor_post := None) else requests[i])
  }

  /** After the deletion no request refers to the deleted pitch, and every request keeps its
      id and position, so lookups are unchanged. */
  lemma DetachPitchKeepsRows(requests: seq<ContactRequest>, pitchId: Id, id: Id)
    ensures forall r :: r in DetachPitch(requests, pitchId) ==> r.pitch != Some(pitchId)
    ensures FindRequest(DetachPitch(requests, pitchId), id) == FindRequest(requests, id)
  {
    IndexOfSameKeys(DetachPitch(requests, pitchId), requests, RequestId, id);
  }

  lemma DetachPostKeepsRows(requests: seq<ContactRequest>, postId: Id, id: Id)
    ensures forall r :: r in DetachPost(requests, postId) ==> r.investor_post != Some(postId)
    ensures FindRequest(DetachPost(requests, postId), id) == FindRequest(requests, id)
  {
    IndexOfSameKeys(DetachPost(requests, postId), requests, RequestId, id);
  }

  // ---------------------------------------------------------------------------
  // Meeting summaries
  // ---------------------------------------------------------------------------

  /** A structured summary of the meeting of one request. */
  datatype MeetingSummary = MeetingSummary(
    id: Id,
    contact_request: Id,
    discussion_points: seq<string>,
    action_items: seq<string>,
    decisions_made: seq<string>,
    next_steps: Option<string>,
    needs_followup: bool,
    followup_date: Option<Timestamp>,
    additional_notes: Option<string>,
    created_at: Timestamp,
    updated_at: Timestamp)

  /** A summary with every column at its default. */
  function NewSummary(id: Id, request: Id, now: Timestamp): (s: MeetingSummary)
    ensures s.contact_request == request
    ensures s.discussion_points == [] && s.action_items == [] && s.decisions_made == []
    ensures !s.needs_followup && s.followup_date.None?
    ensures s.created_at == now && s.updated_at == now
  {
    MeetingSummary(id, request, [], [], [], None, false, None, None, now, now)
  }

  /** The `OneToOneField`: no request has two summaries. */
  predicate OneSummaryPerRequest(summaries: seq<MeetingSummary>) {
    forall i, j :: 0 <= i < j < |summaries| ==> summaries[i].contact_request != summaries[j].contact_request
  }

  predicate HasSummary(summaries: seq<MeetingSummary>, request: Id) {
    exists s :: s in summaries && s.contact_request == request
  }

  /** Inserting a summary: the unique index refuses a second summary for the same request. */
  function InsertSummary(summaries: seq<MeetingSummary>, s: MeetingSummary): (r: Result<seq<MeetingSummary>>)
    ensures r.Err? <==> HasSummary(summaries, s.contact_request)
    ensures r.Err? ==> r.error == ServerError
    ensures r.Ok? ==> r.value == summaries + [s]
  {
    if exists t :: t in summaries && t.contact_request == s.contact_request then Err(ServerError)
    else Ok(summaries + [s])
  }

  /** The unique index refuses exactly the summaries of requests that already have one;
      every insertion it accepts appends the summary and keeps at most one per request. */
  lemma InsertSummaryKeepsOneToOne(summaries: seq<MeetingSummary>, s: MeetingSummary)
    requires OneSummaryPerRequest(summaries)
    ensures InsertSummary(summaries, s).Err? <==> HasSummary(summaries, s.contact_request)
    ensures InsertSummary(summaries, s).Ok? ==>
      && InsertSummary(summaries, s).value == summaries + [s]
      && OneSummaryPerRequest(InsertSummary(summaries, s).value)
      && HasSummary(InsertSummary(summaries, s).value, s.contact_request)
  {
    if InsertSummary(summaries, s).Ok? {
      var r := summaries + [s];
      forall i, j | 0 <= i < j < |r| ensures r[i].contact_request != r[j].contact_request {
        if j == |summaries| {
          assert r[i] in summaries;
        }
      }
      assert r[|summaries|] == s;
    }
  }
}
