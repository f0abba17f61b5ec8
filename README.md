# FundFeed backend core, modelled in Dafny

FundFeed puts developers who pitch a project in touch with investors who publish what they
fund. This project models the part of its Django REST backend that holds logic, and proves
properties of that model:

- **Bookmarks with a denormalised counter.** Developers save investor posts, and each post
  carries a `saved_count`. Investors save pitches, and a pitch's save count is the live
  number of rows. Both save tables are unique per (user, item) and deleted in cascade with
  their item. A pitch also has a view counter.
- **Investor posts.** The permission classes, the conjunctive listing filters, and the
  save / unsave / saved actions.
- **Contact requests.** Who sends and who receives a request depends on whether it is
  about a pitch or an investor post. A user's requests fall into a "sent" and an "inbox"
  box. A request can be marked as viewed.
- **The notification receiver.** A 30-minute throttle per (developer, investor) pair, and
  the text of the e-mail.

Database tables are sequences of rows in insertion order. A table that an endpoint changes
is a field of a class: `PitchStore`, `PostStore` and `Ledger`. Timestamps are integer
seconds. A caller is `Anonymous` or an authenticated `User`. A failing endpoint returns an
`Error`, which carries its HTTP status. A response built by the handler itself is a `Reply`
or the returned row.

Modules follow the source files:

- `pitch_models` and `pitch_views`: `pitches/`.
- `post_models` and `post_views`: `investor_posts/`.
- `request_models`, `request_views`, `request_ledger` and `signals`: `requests_app/`.
- Shared vocabulary: `common`, `text` (case-insensitive substring search), `tables`
  (lookup, filter, newest-first ordering), `accounts` and `bookmarks`.

## Where the model follows the code rather than its evident intent

- A contact request that names a pitch or post that does not exist is refused with 400.
  The create serializer validates both references before `perform_create` runs, so the
  404 of its `get_object_or_404` is never reached.
- A contact request that names neither a pitch nor a post is refused with a 500, from the
  `ValueError` of `perform_create`. It is not a validation error.
- A self-addressed contact request (a user who contacts their own pitch or post) is in both of that user's boxes (`RequestViews.SelfRequestInBothBoxes`); `RequestLedger.NoRequestInBothBoxes` is stated for requests between two different users.
- A contact request that names both is stored with both references (see Findings). The
  corrected `RequestViews.Build` refuses it with 400. The comment at
  requests_app/views.py:50-52 gives each request one direction: an investor contacting a
  developer through a pitch, or a developer contacting an investor through a post.
- Any authenticated user may create a pitch, and update or delete any pitch: `PitchViewSet`
  checks only `IsAuthenticated`.
- `get_permissions` decides the permission class for every action of the investor-post view
  set. The `IsAuthenticated` classes declared on the `save`, `unsave` and `saved` actions
  therefore never apply, and those actions fall under `AllowAny`.
- An anonymous caller listing with `investor=me` gets nothing.

## Model

| member | source | states |
|---|---|---|
| `Text.Contains` | investor_posts/views.py:51-53 | true exactly when the searched text occurs at some offset of the field |
| `Text.IContainsIgnoresCase` | investor_posts/views.py:50-54 | the `icontains` match ignores the case of the field and of the searched value; the empty value matches every field |
| `Text.IContainsItself` | investor_posts/views.py:69 | a field that equals the searched value up to case matches it |
| `Tables.IndexOf` | pitches/views.py:60 | a lookup by primary key finds a row with that key, the first one, and finds nothing exactly when no row has the key |
| `Tables.IndexOfSameKeys` | pitches/views.py:43-44 | updating columns other than the key moves no row: every lookup gives the same answer |
| `Tables.IndexOfAppend` | pitches/views.py:34 | inserting a row leaves every existing row where it was found |
| `Tables.RemoveKeyKeeps` | pitches/models.py:26 | deleting a row by key keeps every other row findable |
| `Tables.RemoveKeyRemoves` | pitches/models.py:26 | after deleting by key, no row has the key any more |
| `Tables.FilterKeepsUniqueKeys` | pitches/models.py:12 | deleting rows keeps the primary key unique |
| `Tables.NewestFirst` | requests_app/views.py:42 | a filtered table read in reverse insertion order is newest first |
| `Bookmarks.Lookup` | investor_posts/views.py:109 | the (user, item) row found is the first such row; none is found exactly when no row saves the pair |
| `Bookmarks.RowsOf` | pitches/views.py:96 | the rows of one user are exactly that user's rows of the table |
| `Bookmarks.WithoutItem` | pitches/models.py:26 | the cascade keeps exactly the rows that do not save the deleted item |
| `Bookmarks.CountConcat` | pitches/serializers.py:54-55 | the save count of an item is additive over the parts of the table |
| `Bookmarks.CountAppend` | investor_posts/views.py:99 | inserting a row adds one to its item's save count and leaves every other count alone |
| `Bookmarks.CountRemoveAt` | investor_posts/views.py:113 | deleting a row takes one from its item's save count and leaves every other count alone |
| `Bookmarks.SaveThenUnsaveRestores` | pitches/views.py:56-85 | after saving a pair that was not saved, the row unsave finds is the one just added, and deleting it gives back the table |
| `Bookmarks.CountWithoutItem` | investor_posts/models.py:26 | after the cascade the deleted item has no saves and every other item keeps its count |
| `Bookmarks.CountAbsent` | investor_posts/models.py:21 | an item no row refers to has a save count of zero |
| `Bookmarks.UniqueAppend` | investor_posts/models.py:29-30 | inserting a pair that is not saved keeps (user, item) unique |
| `Bookmarks.UniqueRemoveAt` | pitches/models.py:29-30 | deleting a row keeps (user, item) unique, and the deleted pair is then not saved |
| `Bookmarks.UniqueWithoutItem` | pitches/models.py:26 | the cascade keeps (user, item) unique |
| `PitchModels.NewPitch` | pitches/models.py:11-22 | a new pitch respects the column widths (title 80, description 300) and has the caller as developer, no views and an empty tag list unless tags were sent |
| `PitchModels.DeleteCascades` | pitches/models.py:26 | deleting a pitch removes it and every saved row of it, keeps every other saved row, and keeps all constraints |
| `PitchViews.PitchStore.Create` | pitches/views.py:30-38 | 401 for the anonymous user; 400 for an input the serializer refuses, else the new pitch appended with the caller as developer; constraints kept |
| `PitchViews.PitchStore.AddView` | pitches/views.py:40-45 | 401 for the anonymous user; 404 for an unknown pitch, else that pitch's views go up by exactly one, the reply is the new count, and nothing else changes |
| `PitchViews.PitchStore.Save` | pitches/views.py:56-74 | 401 for the anonymous user; 404 before the saved table is touched; 200 "Already saved" with nothing changed; or 201 "Saved" with one row added and the save count one higher |
| `PitchViews.PitchStore.Unsave` | pitches/views.py:76-85 | 401 for the anonymous user; 404 for an unknown pitch; 200 "Not saved" with nothing changed; or 200 "Removed" with exactly that row deleted and the save count one lower |
| `PitchViews.SavedListResolves` | pitches/views.py:94-98 | the saved list holds exactly the caller's rows, each of an existing pitch |
| `PitchViews.SaveIsIdempotent` | pitches/views.py:56-85 | save, save, unsave, unsave answer 201 "Saved", 200 "Already saved", 200 "Removed", 200 "Not saved"; after the two saves the table is the old one plus exactly the caller's row; at the end both tables are as they were |
| `PostModels.NewPost` | investor_posts/models.py:9-22 | a new post has the caller as investor, no views and no saves; its title, description, location, amount range and logo are those sent; its tags, stages and contact preference are those sent, else the empty list, the empty list and "email"; every text fits its column width |
| `PostModels.Recount` | investor_posts/views.py:100 | only the chosen post's counter changes, by the given amount; every other column of every post is kept |
| `PostModels.RecountKeepsRows` | investor_posts/views.py:101 | changing a counter moves no row and keeps the primary key unique |
| `PostModels.RecountUndo` | investor_posts/views.py:100-114 | the decrement of `unsave` undoes the increment of `save`: the table comes back as it was |
| `PostModels.SaveKeepsCounters` | investor_posts/views.py:99-101 | inserting a row and incrementing its post's counter keeps every `saved_count` equal to the post's number of rows |
| `PostModels.UnsaveKeepsCounters` | investor_posts/views.py:113-115 | deleting a row and decrementing its post's counter keeps the counters equal to the row counts, and the counter never goes negative |
| `PostModels.InsertKeepsCounters` | investor_posts/models.py:21 | a new post with `saved_count` zero keeps the counters equal to the row counts |
| `PostModels.DeleteCascades` | investor_posts/models.py:26 | deleting a post removes it and every saved row of it, keeps every other row, all constraints and the counters |
| `PostViews.Denial` | investor_posts/views.py:20-23 | a refused anonymous caller gets 401, a refused authenticated caller 403 |
| `PostViews.ReadsAreOpen` | investor_posts/views.py:16-32 | listing and retrieving are allowed to every caller, signed in or not |
| `PostViews.CreateNeedsInvestor` | investor_posts/views.py:78-80 | creating is allowed exactly to authenticated investors |
| `PostViews.ChangesNeedOwner` | investor_posts/views.py:29-32 | update, partial update and delete are allowed exactly to the post's owner |
| `PostViews.ExtraActionsAllowAny` | investor_posts/views.py:78-85 | `save`, `unsave` and `saved` fall to `AllowAny`, so no permission check refuses any caller there |
| `PostViews.Listing` | investor_posts/views.py:35-71 | a post is listed exactly when it is in the table and passes every filter that was given |
| `PostViews.ListingFilters` | investor_posts/views.py:40-69 | each listed post passes each given filter: owner ("me" is the caller), search in title, description or location, tags, stage and location, all case-insensitive |
| `PostViews.EmptyQueryListsAll` | investor_posts/views.py:37 | with no filter every post is listed |
| `PostViews.AnonymousOwnsNothing` | investor_posts/views.py:42-43 | `investor=me` from the anonymous user lists no post |
| `PostViews.ListingNewestFirst` | investor_posts/views.py:37 | the listing is newest first when the rows are stored in creation order, which `PostStore` keeps as its invariant |
| `PostViews.PostStore.Create` | investor_posts/views.py:87-88 | refusal unless an authenticated investor, 400 for an input the serializer refuses, else the new post appended with the caller as investor; constraints, counters and creation order kept |
| `PostViews.PostStore.Save` | investor_posts/views.py:90-102 | 404 for an unknown post; 200 "Already saved." with nothing changed; or 201 "Post saved." with one row added and that post's `saved_count` one higher; counters kept |
| `PostViews.PostStore.Unsave` | investor_posts/views.py:104-116 | 404 for an unknown post; 400 "Not saved." with nothing changed; or 204 "Post unsaved." with exactly that row deleted and `saved_count` one lower; counters kept |
| `PostViews.PostStore.Destroy` | investor_posts/views.py:81-82 | succeeds exactly for the post's owner, and then deletes the post and its saved rows in cascade; counters and creation order kept |
| `PostViews.SavedActionResolves` | investor_posts/views.py:118-123 | the saved list holds exactly the caller's rows, each of an existing post |
| `PostViews.SaveUnsaveRoundTrip` | investor_posts/views.py:90-116 | save, save, unsave, unsave answer 201 "Post saved.", 200 "Already saved.", 204 "Post unsaved.", 400 "Not saved."; after the two saves the table is the old one plus exactly the caller's row; at the end both tables, counters included, are as they were |
| `RequestModels.ParseStatus` | requests_app/models.py:12-17 | a parsed meeting status has the parsed code |
| `RequestModels.StatusCodesRoundTrip` | requests_app/models.py:12-17 | each status reads back from its code, and only the four codes are statuses |
| `RequestModels.ParsePlatform` | requests_app/models.py:19-26 | a parsed platform has the parsed code |
| `RequestModels.PlatformCodesRoundTrip` | requests_app/models.py:19-26 | each platform reads back from its code, and only the six codes are platforms |
| `RequestModels.ParsePreference` | requests_app/models.py:35 | a parsed preference has the parsed code |
| `RequestModels.PreferenceCodesRoundTrip` | requests_app/models.py:35 | each preference reads back from its code, and only email, phone and dm are preferences |
| `RequestModels.NewRequest` | requests_app/models.py:28-50 | a new request stores the given id, parties, references, message, meeting link, preference and scheduled times; it is not viewed, has status scheduled, platform google-meet, timezone UTC and no meeting data |
| `RequestModels.DetachPitch` | requests_app/models.py:31 | afterwards no request refers to the deleted pitch and no pitch reference appears that was not there; a request about another pitch or none is kept whole, and every other column of every request is kept |
| `RequestModels.DetachPost` | requests_app/models.py:32 | afterwards no request refers to the deleted post and no post reference appears that was not there; a request about another post or none is kept whole, and every other column of every request is kept |
| `RequestModels.DetachPitchKeepsRows` | requests_app/models.py:31 | after a pitch is deleted no request refers to it, and every request is found where it was |
| `RequestModels.DetachPostKeepsRows` | requests_app/models.py:32 | after a post is deleted no request refers to it, and every request is found where it was |
| `RequestModels.NewSummary` | requests_app/models.py:53-72 | a new summary has empty discussion, action and decision lists and needs no follow-up |
| `RequestModels.InsertSummaryKeepsOneToOne` | requests_app/models.py:56 | the insertion is refused exactly when the request already has a summary; an accepted one appends the summary and keeps at most one summary per request |
| `RequestViews.Mailbox` | requests_app/views.py:15-42 | a request is in the box exactly when it is in the table and listed for the caller and the box |
| `RequestViews.MailboxSound` | requests_app/views.py:20-40 | every listed request involves the caller; "sent" holds pitch requests the caller is investor of and post requests the caller is developer of; every other box value gives the inbox, the converse |
| `RequestViews.MailboxNewestFirst` | requests_app/views.py:42 | each box is newest first when the rows are stored in creation order, which `Ledger` keeps as its invariant |
| `RequestViews.BoxesFollowDirection` | requests_app/views.py:24-40 | for a request between two users about one thing, "sent" holds it for its sender only and the inbox for its receiver only |
| `RequestViews.OneBoxEach` | requests_app/views.py:24-40 | each participant sees such a request in exactly one box, and the two participants in opposite boxes |
| `RequestViews.SelfRequestInBothBoxes` | requests_app/views.py:24-40 | a request whose developer and investor are the same user is in both of that user's boxes |
| `RequestViews.DetachedIsInNoBox` | requests_app/views.py:24-40 | a request that refers to neither a pitch nor a post is in nobody's box |
| `RequestViews.BuildAsWritten` | requests_app/views.py:49-78 | creation fails exactly for a refused input or when neither reference is sent; whenever a pitch is sent, even with a post, the caller is investor, the pitch's developer is developer, and the post reference sent is stored too; with only a post the caller is developer and the post's investor is investor; the id, message, preference and time are stored |
| `RequestViews.PreferenceOf` | requests_app/models.py:35 | the stored preference is the one sent, else the default "email" |
| `RequestViews.Build` | requests_app/views.py:60-75 | every request created refers to exactly one pitch or post |
| `RequestViews.BuildAgreesUnlessBoth` | requests_app/views.py:60-75 | the corrected creation equals the written one unless both references are sent |
| `RequestViews.BuildDirection` | requests_app/views.py:60-78 | 400 for a refused input or both references, 500 with neither; with a pitch the caller is investor and the pitch's developer is developer; with a post the caller is developer and the post's investor is investor; the request starts unviewed and stores the id, message, preference (default "email"), meeting link, scheduled times and creation time |
| `RequestViews.CreatorSeesSent` | requests_app/views.py:24-40 | a created request is in its creator's "sent" box only and in the other party's inbox only |
| `RequestViews.BothReferencesShowTwice` | requests_app/views.py:60-67 | as written, a request sent with both references has the caller as investor and the pitch's developer as developer, and is in that developer's "sent" box and inbox at once |
| `Signals.ThrottledIff` | requests_app/signals.py:19-30 | the e-mail is suppressed exactly when another request of the same developer and investor was created within 30 minutes |
| `Signals.RecentCountAppend` | requests_app/signals.py:22-26 | adding a request adds one to the throttle count exactly when it is a recent request of the pair |
| `Signals.OwnRequestNeverCounts` | requests_app/signals.py:26 | the new request never counts towards its own throttle |
| `Signals.ThrottleScenario` | requests_app/signals.py:19-30 | of two requests of one pair within the window only the first is mailed; a third after the window is mailed again |
| `Signals.SubjectNamesSender` | requests_app/signals.py:35 | the subject carries the sender's name after its fixed prefix, and different names give different subjects |
| `Signals.BodyQuotesMessage` | requests_app/signals.py:37-43 | the body carries the sender's name and the request's message verbatim |
| `Signals.NotificationAsWritten` | requests_app/signals.py:15-55 | nothing on an update; on a creation one e-mail unless throttled, always to the request's investor, from the configured address, with the subject naming the developer and the body naming the developer and quoting the message |
| `Signals.Compose` | requests_app/signals.py:33-43 | the e-mail goes only to the receiver, from the configured address; its subject is "New Contact Request from " + the sender's name + " on FundFeed" and its body is the fixed template around the sender's name and the message; the name is the username when present and non-empty, else the e-mail address, and the body quotes the message |
| `Signals.Notification` | requests_app/signals.py:15-43 | nothing on an update; on a creation, unless throttled, one e-mail to the receiver naming the sender and quoting the message |
| `Signals.NotificationAgreesForPosts` | requests_app/signals.py:33-34 | for requests about an investor post the correction changes nothing |
| `Signals.PitchRequestMailsItsSender` | requests_app/signals.py:33-34 | as written, the investor who sends a pitch request is mailed about it under a subject naming the developer who received it, and that developer is not mailed |
| `RequestLedger.NoRequestInBothBoxes` | requests_app/views.py:24-40 | in a well-formed table no participant sees a request between two different users in both boxes |
| `RequestLedger.DetachKeepsWellFormed` | requests_app/models.py:31-32 | deleting a pitch or post keeps the request table well formed |
| `RequestLedger.Ledger.Create` | requests_app/views.py:49-78 | 401 for the anonymous user; otherwise the error of the corrected creation `RequestViews.Build` (400 when both references are sent), 500 on an id clash, or the request appended and, when not throttled and delivered, the corrected e-mail (to the receiver, as `Signals.Notification`) added to the outbox; a failed delivery still creates the request; creation order kept |
| `RequestLedger.Ledger.MarkViewed` | requests_app/views.py:80-87 | 404 unless the request is in the caller's selected box, else only its `viewed` flag is set; no e-mail is sent; creation order kept |
| `RequestLedger.MarkViewedIsIdempotent` | requests_app/views.py:80-87 | both calls answer 200 "marked as viewed"; the first sets only the request's `viewed` flag, the second leaves the table as the first left it, and no e-mail is sent |

## Left out

- User accounts, registration, profiles, token issue and avatar upload: they rest on Django authentication, JWT and cloud storage. A user is a plain record here.
- Update and partial update of pitches and posts, and deleting a pitch through the API: generic framework handlers, not modelled. For posts their permission rule is (`PostViews.ChangesNeedOwner`); for pitches the rule is only `IsAuthenticated` (pitches/views.py:21), so any signed-in user may update or delete any pitch. The cascades of the model definitions are modelled.
- The `SET_NULL` of a request's pitch or post: `PostViews.PostStore.Destroy` does not apply it, because the request table lives in the separate `Ledger`, and no pitch deletion is modelled. It exists only as the stand-alone `RequestModels.DetachPitch` and `RequestModels.DetachPost`, with `RequestLedger.DetachKeepsWellFormed`.
- Serializer output: nested objects, absolute URLs and the `saves` field of a pitch. The save count is modelled as the live number of rows.
- The sending of e-mail, the test e-mail endpoint and the diagnostic `print` calls. The outbox records the e-mails delivered; whether delivery succeeds is a parameter, and a mail whose delivery fails is not recorded.
- The query parameters reaching `get_object` in the `save`, `unsave` and `destroy` actions: the model looks posts up by id only, as for a URL without parameters.
- Anonymous callers of the `save`, `unsave` and `saved` actions: `PostViews.PostStore.Save` and `PostViews.PostStore.Unsave` take an authenticated user.
- Tag and stage filters: they match text against the JSON rendering of a list. That rendering is a parameter (`encode`) rather than a guess at the database's format.
- Case folding: only ASCII letters are folded.
- Column widths are counted in characters. Leading and trailing whitespace, which the serializers strip, is not trimmed, so a "non-blank" field is one that is not empty.
- Timezones and clocks: time is integer seconds, and the current time is a parameter. The clock is taken to be monotone, so that insertion order is creation order.
- PostViews.PostStore.Create: requires `now` no earlier than the newest post's `created_at` (a monotone clock).
- RequestLedger.Ledger.Create: requires `now` no earlier than the newest request's `created_at` (a monotone clock).
- Generated identifiers: uuid generation is a parameter (`id`). A clash with an existing key is an integrity error (500).
- Concurrency: the read-then-write of save and unsave is modelled as one step.
- Meeting scheduling, start, end, summaries and PDF export: none of their handlers is part of this model. Only the enums, the fields, their defaults and the one-to-one summary constraint are.
- Deleting a user, which would cascade to their requests, posts, pitches and saves.

## Findings

| source | as written | input that shows it | evidently intended | confidence | as-written member | corrected member |
|---|---|---|---|---|---|---|
| requests_app/signals.py:33-34 | the e-mail always goes to the request's investor and names its developer | an investor creates a request about a developer's pitch: the investor is mailed "You have received a new contact request" from the developer, and the developer is not told | mail whoever receives the request and name whoever sent it | medium, not executed | `Signals.PitchRequestMailsItsSender` | `Signals.Notification` |
| requests_app/views.py:60-67 | with both `pitch` and `investor_post` sent, the pitch branch stores the post reference as well | an investor sends the id of an existing pitch and of an existing post: the pitch's developer then sees the request in both "sent" and inbox | refuse a request that refers to both | high, not executed | `RequestViews.BothReferencesShowTwice` | `RequestViews.Build` |
