/** The `post_save` receiver of `ContactRequest`: the throttle that suppresses repeated
    notifications and the composition of the notification e-mail. Delivery itself is not
    part of this module; the ledger records the e-mails that were handed over. */
module Signals {
  import opened Common
  import opened Accounts
  import opened Text
  import opened RequestModels
  import opened RequestViews

  /** Thirty minutes, in seconds. */
  const Window := 30 * 60

  /** `other` is another request of the same developer to the same investor, created within
      the window before `now`. */
  predicate Recent(other: ContactRequest, instance: ContactRequest, now: Timestamp) {
    && other.id != instance.id
    && other.developer.id == instance.developer.id
    && other.investor.id == instance.investor.id
    && other.created_at >= now - Window
  }

  /** The throttle query: `filter(developer, investor, created_at__gte).exclude(id).count()`. */
  function RecentCount(requests: seq<ContactRequest>, instance: ContactRequest, now: Timestamp): nat {
    if requests == [] then 0
    else (if Recent(requests[0], instance, now) then 1 else 0) + RecentCount(requests[1..], instance, now)
  }

  predicate Throttled(requests: seq<ContactRequest>, instance: ContactRequest, now: Timestamp) {
    RecentCount(requests, instance, now) > 0
  }

  /** The e-mail is suppressed exactly when another request of the same pair lies in the
      window. */
  lemma {:induction false} ThrottledIff(requests: seq<ContactRequest>, instance: ContactRequest, now: Timestamp)
    ensures Throttled(requests, instance, now) <==> exists r :: r in requests && Recent(r, instance, now)
  {
    if requests != [] {
      ThrottledIff(requests[1..], instance, now);
      assert forall r :: r in requests <==> r == requests[0] || r in requests[1..];
    }
  }

  lemma {:induction false} RecentCountAppend(requests: seq<ContactRequest>, x: ContactRequest, instance: ContactRequest, now: Timestamp)
    ensures RecentCount(requests + [x], instance, now) == RecentCount(requests, instance, now) + (if Recent(x, instance, now) then 1 else 0)
  {
    if requests == [] {
      assert requests + [x] == [x];
    } else {
      assert (requests + [x])[1..] == requests[1..] + [x];
      RecentCountAppend(requests[1..], x, instance, now);
    }
  }

  /** The new request, already stored when the receiver runs, never throttles itself. */
  lemma OwnRequestNeverCounts(requests: seq<ContactRequest>, instance: ContactRequest, now: Timestamp)
    ensures RecentCount(requests + [instance], instance, now) == RecentCount(requests, instance, now)
  {
    RecentCountAppend(requests, instance, instance, now);
  }

  /** Two requests of one pair within the window give one e-mail; a third once the window
      after the second has passed gives another. */
  lemma ThrottleScenario(a: ContactRequest, b: ContactRequest, c: ContactRequest)
    requires a.id != b.id && b.id != c.id && a.id != c.id
    requires a.developer.id == b.developer.id == c.developer.id
    requires a.investor.id == b.investor.id == c.investor.id
    requires a.created_at <= b.created_at <= a.created_at + Window
    requires c.created_at > b.created_at + Window
    ensures !Throttled([a], a, a.created_at)
    ensures Throttled([a, b], b, b.created_at)
    ensures !Throttled([a, b, c], c, c.created_at)
  {
    ThrottledIff([a], a, a.created_at);
    ThrottledIff([a, b], b, b.created_at);
    assert a in [a, b] && Recent(a, b, b.created_at);
    ThrottledIff([a, b, c], c, c.created_at);
  }

  /** `username or email`: the username unless it is missing or empty. */
  function SenderName(u: User): (name: string)
    ensures Given(u.username) ==> name == u.username.value
    ensures !Given(u.username) ==> name == u.email
  {
    if Given(u.username) then u.username.value else u.email
  }

  const SubjectPrefix := "New Contact Request from "
  const SubjectSuffix := " on FundFeed"

  function Subject(name: string): string {
    SubjectPrefix + name + SubjectSuffix
  }

  /** The subject names the sender, and different names give different subjects. */
  lemma SubjectNamesSender(name: string, other: string)
    ensures OccursAt(Subject(name), name, |SubjectPrefix|)
    ensures Subject(name) == Subject(other) ==> name == other
  {
    OccursBetween(SubjectPrefix, name, SubjectSuffix);
    if Subject(name) == Subject(other) {
      assert |name| == |other|;
      assert Subject(other)[|SubjectPrefix|..|SubjectPrefix| + |other|] == other;
    }
  }

  const Greeting := "Hello,\n\nYou have received a new contact request from "
  const MessageHeading := ".\n\nMessage:\n"
  const Closing := "\n\nLog in to FundFeed to view more details and respond.\n\nBest regards,\nThe FundFeed Team"

  function Body(name: string, message: string): string {
    Greeting + name + MessageHeading + message + Closing
  }

  /** The body carries the sender's name and the request's message verbatim. */
  lemma BodyQuotesMessage(name: string, message: string)
    ensures OccursAt(Body(name, message), name, |Greeting|)
    ensures OccursAt(Body(name, message), message, |Greeting| + |name| + |MessageHeading|)
    ensures Contains(Body(name, message), message)
  {
    OccursInFive(Greeting, name, MessageHeading, message, Closing);
  }

  lemma OccursBetween(a: string, b: string, c: string)
    ensures OccursAt(a + b + c, b, |a|)
  {
    assert (a + b + c)[|a|..|a| + |b|] == b;
  }

  /** In `a + b + c + d + e`, `b` starts after `a` and `d` after `a + b + c`. */
  lemma OccursInFive(a: string, b: string, c: string, d: string, e: string)
    ensures OccursAt(a + b + c + d + e, b, |a|)
    ensures OccursAt(a + b + c + d + e, d, |a| + |b| + |c|)
  {
    assert a + b + c + d + e == a + b + (c + d + e);
    OccursBetween(a, b, c + d + e);
    OccursBetween(a + b + c, d, e);
  }

  /** An e-mail handed to the mail backend. */
  datatype Email = Email(sender: string, recipients: seq<string>, subject: string, body: string)

  /** The receiver as written: nothing on an update; otherwise, unless throttled, one
      e-mail to the request's investor naming its developer. `requests` is the table after
      the save; `from` is the configured sender address. */
  function NotificationAsWritten(created: bool, instance: ContactRequest, requests: seq<ContactRequest>,
                                 now: Timestamp, from: string): (r: Option<Email>)
    ensures r.Some? <==> created && !Throttled(requests, instance, now)
    ensures r.Some? ==> r.value.recipients == [instance.investor.email] && r.value.sender == from
    ensures r.Some? ==> r.value.subject == Subject(SenderName(instance.developer))
    ensures r.Some? ==> r.value.body == Body(SenderName(instance.developer), instance.message)
  {
    if !created || Throttled(requests, instance, now) then None
    else
      var name := SenderName(instance.developer);
      Some(Email(from, [instance.investor.email], Subject(name), Body(name, instance.message)))
  }

  /** The e-mail for a request: to whoever receives it, naming whoever sent it, quoting its
      message. */
  function Compose(instance: ContactRequest, from: string): (m: Email)
    ensures m.recipients == [Receiver(instance).email] && m.sender == from
    ensures OccursAt(m.subject, SenderName(Sender(instance)), |SubjectPrefix|)
    ensures Given(Sender(instance).username) ==> OccursAt(m.subject, Sender(instance).username.value, |SubjectPrefix|)
    ensures !Given(Sender(instance).username) ==> OccursAt(m.subject, Sender(instance).email, |SubjectPrefix|)
    ensures Contains(m.body, instance.message)
    ensures m.subject == Subject(SenderName(Sender(instance)))
    ensures m.body == Body(SenderName(Sender(instance)), instance.message)
  {
    var name := SenderName(Sender(instance));
    SubjectNamesSender(name, name);
    BodyQuotesMessage(name, instance.message);
    Email(from, [Receiver(instance).email], Subject(name), Body(name, instance.message))
  }

  /** The receiver corrected: unless throttled, one e-mail to whoever receives the request,
      naming whoever sent it. */
  function Notification(created: bool, instance: ContactRequest, requests: seq<ContactRequest>,
                        now: Timestamp, from: string): (r: Option<Email>)
    ensures r.Some? <==> created && !Throttled(requests, instance, now)
    ensures r.Some? ==> r.value.recipients == [Receiver(instance).email] && r.value.sender == from
    ensures r.Some? ==> OccursAt(r.value.subject, SenderName(Sender(instance)), |SubjectPrefix|)
    ensures r.Some? ==> Contains(r.value.body, instance.message)
  {
    if !created || Throttled(requests, instance, now) then None
    else Some(Compose(instance, from))
  }

  /** The two agree on requests about an investor post, where the developer writes to the
      investor. */
  lemma NotificationAgreesForPosts(created: bool, instance: ContactRequest, requests: seq<ContactRequest>,
                                   now: Timestamp, from: string)
    requires instance.pitch.None?
    ensures Notification(created, instance, requests, now, from) == NotificationAsWritten(created, instance, requests, now, from)
  {
  }

  /** As written, for a request an investor sends about a pitch, the investor is notified of
      their own request, under a subject naming the developer who received it, and that
      developer hears nothing. */
  lemma PitchRequestMailsItsSender(instance: ContactRequest, requests: seq<ContactRequest>, now: Timestamp, from: string)
    requires instance.pitch.Some? && instance.investor.email != instance.developer.email
    requires !Throttled(requests, instance, now)
    ensures var m := NotificationAsWritten(true, instance, requests, now, from);
      && m.Some? && m.value.recipients == [Sender(instance).email] && Receiver(instance).email !in m.value.recipients
      && m.value.subject == Subject(SenderName(Receiver(instance)))
  {
  }
}
