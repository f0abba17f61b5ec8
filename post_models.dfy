/** The `InvestorPost` and `SavedInvestorPost` tables, with the denormalised `saved_count`. */
module PostModels {
  import opened Common
  import opened Accounts
  import opened Bookmarks
  import opened Tables

  /** Column widths of the `CharField`s, which the serializer enforces on input. */
  const TitleMax := 150
  const AmountRangeMax := 50
  const LocationMax := 120
  const ContactPreferenceMax := 20

  const DefaultContactPreference := "email"

  /** An investor post row. `tags` and `stages` are JSON lists; `logo` is the stored file. */
  datatype InvestorPost = InvestorPost(
    id: Id,
    investor: User,
    title: string,
    description: string,
    tags: seq<string>,
    stages: seq<string>,
    amount_range: string,
    location: string,
    contact_preference: string,
    logo: Option<string>,
    views: int,
    saved_count: int,
    created_at: Timestamp)

  /** A `SavedInvestorPost` row is a bookmark whose user is the developer and whose item is
      the post. */
  type SavedInvestorPost = Bookmark

  /** The fields a client may send (`InvestorPostCreateSerializer`); `None` when omitted. */
  datatype PostInput = PostInput(
    title: string,
    description: string,
    tags: Option<seq<string>>,
    stages: Option<seq<string>>,
    amount_range: string,
    location: string,
    contact_preference: Option<string>,
    logo: Option<string>)

  /** What the serializer accepts: a non-blank title within its width, a non-blank
      description, the optional texts within their widths, and a contact preference that is
      omitted or non-blank and within its width. */
  predicate Admissible(input: PostInput) {
    && 0 < |input.title| <= TitleMax
    && 0 < |input.description|
    && |input.amount_range| <= AmountRangeMax
    && |input.location| <= LocationMax
    && (input.contact_preference.Some? ==> 0 < |input.contact_preference.value| <= ContactPreferenceMax)
  }

  /** The row the database stores for an admissible input: the defaults of the model filled
      in, the owner taken from the caller and both counters at zero. */
  function NewPost(id: Id, investor: User, input: PostInput, now: Timestamp): (p: InvestorPost)
    requires Admissible(input)
    ensures p.id == id && p.investor == investor && p.created_at == now
    ensures p.views == 0 && p.saved_count == 0
    ensures input.tags.None? ==> p.tags == []
    ensures input.stages.None? ==> p.stages == []
    ensures input.contact_preference.None? ==> p.contact_preference == "email"
    ensures input.tags.Some? ==> p.tags == input.tags.value
    ensures input.stages.Some? ==> p.stages == input.stages.value
    ensures input.contact_preference.Some? ==> p.contact_preference == input.contact_preference.value
    ensures p.title == input.title && p.description == input.description
    ensures p.location == input.location && p.amount_range == input.amount_range && p.logo == input.logo
    ensures |p.title| <= TitleMax && |p.location| <= LocationMax
    ensures |p.amount_range| <= AmountRangeMax && |p.contact_preference| <= ContactPreferenceMax
  {
    InvestorPost(id, investor, input.title, input.description, input.tags.GetOr([]),
                 input.stages.GetOr([]), input.amount_range, input.location,
                 input.contact_preference.GetOr(DefaultContactPreference), input.logo, 0, 0, now)
  }

  function PostId(p: InvestorPost): Id {
    p.id
  }

  function CreatedAt(p: InvestorPost): int {
    p.created_at
  }

  /** `InvestorPost.objects.get(id=id)`. */
  function Find(posts: seq<InvestorPost>, id: Id): Option<nat> {
    IndexOf(posts, PostId, id)
  }

  /** The constraints the database keeps on the two tables: primary key, `unique_together`
      and the foreign key from every saved row to an existing post. */
  predicate Consistent(posts: seq<InvestorPost>, saved: seq<SavedInvestorPost>) {
    && UniqueKeys(posts, PostId)
    && Unique(saved)
    && forall b :: b in saved ==> Find(posts, b.item).Some?
  }

  /** The denormalised counter agrees with the table: every post's `saved_count` is the
      number of its saved rows. */
  predicate CountersMatch(posts: seq<InvestorPost>, saved: seq<SavedInvestorPost>) {
    forall i :: 0 <= i < |posts| ==> posts[i].saved_count == Count(saved, posts[i].id)
  }

  /** `F("saved_count") + delta` on the post at position `i`. */
  /** Incrementing a counter and then decrementing it gives back the table. */
  lemma RecountUndo(posts: seq<InvestorPost>, i: nat, delta: int)
    requires i < |posts|
    ensures Recount(Recount(posts, i, delta), i, -delta) == posts
  {
    var r := Recount(Recount(posts, i, delta), i, -delta);
    forall j | 0 <= j < |posts| ensures r[j] == posts[j] {
      if j == i {
        assert r[i].(saved_count := 0) == posts[i].(saved_count := 0);
      }
    }
  }

  function Recount(posts: seq<InvestorPost>, i: nat, delta: int): (r: seq<InvestorPost>)
    requires i < |posts|
    ensures |r| == |posts| && r[i].saved_count == posts[i].saved_count + delta
    ensures r[i].(saved_count := 0) == posts[i].(saved_count := 0)
    ensures forall j :: 0 <= j < |posts| && j != i ==> r[j] == posts[j]
  {
    posts[i := posts[i].(saved_count := posts[i].saved_count + delta)]
  }

  /** Changing a counter moves no row: every key is found where it was, and the key
      constraint and the creation order still hold. */
  lemma RecountKeepsRows(posts: seq<InvestorPost>, i: nat, delta: int)
    requires i < |posts|
    ensures forall x :: Find(Recount(posts, i, delta), x) == Find(posts, x)
    ensures UniqueKeys(posts, PostId) ==> UniqueKeys(Recount(posts, i, delta), PostId)
    ensures Ascending(posts, CreatedAt) ==> Ascending(Recount(posts, i, delta), CreatedAt)
  {
    forall x ensures Find(Recount(posts, i, delta), x) == Find(posts, x) {
      IndexOfSameKeys(Recount(posts, i, delta), posts, PostId, x);
    }
  }

  /** Creating a save row and incrementing the post's counter keeps the counters in step. */
  lemma SaveKeepsCounters(posts: seq<InvestorPost>, saved: seq<SavedInvestorPost>, i: nat, b: SavedInvestorPost)
    requires UniqueKeys(posts, PostId) && CountersMatch(posts, saved)
    requires i < |posts| && b.item == posts[i].id
    ensures CountersMatch(Recount(posts, i, 1), saved + [b])
  {
    forall j | 0 <= j < |posts| ensures Count(saved + [b], posts[j].id) == Count(saved, posts[j].id) + (if j == i then 1 else 0) {
      CountAppend(saved, b, posts[j].id);
    }
  }

  /** Deleting a save row and decrementing its post's counter keeps the counters in step,
      and the decremented counter is not negative. */
  lemma UnsaveKeepsCounters(posts: seq<InvestorPost>, saved: seq<SavedInvestorPost>, i: nat, k: nat)
    requires UniqueKeys(posts, PostId) && CountersMatch(posts, saved)
    requires i < |posts| && k < |saved| && saved[k].item == posts[i].id
    ensures posts[i].saved_count - 1 >= 0
    ensures CountersMatch(Recount(posts, i, -1), RemoveAt(saved, k))
  {
    forall j | 0 <= j < |posts| ensures Count(RemoveAt(saved, k), posts[j].id) == Count(saved, posts[j].id) - (if j == i then 1 else 0) {
      CountRemoveAt(saved, k, posts[j].id);
    }
  }

  /** Inserting a new post, whose counter starts at zero, keeps the counters in step. */
  lemma InsertKeepsCounters(posts: seq<InvestorPost>, saved: seq<SavedInvestorPost>, p: InvestorPost)
    requires Consistent(posts, saved) && CountersMatch(posts, saved)
    requires Find(posts, p.id).None? && p.saved_count == 0
    ensures CountersMatch(posts + [p], saved)
  {
    forall b | b in saved ensures b.item != p.id {
    }
    CountAbsent(saved, p.id);
  }

  /** `post.delete()` with its cascade: the post and every `SavedInvestorPost` row of it go. */
  function Delete(posts: seq<InvestorPost>, saved: seq<SavedInvestorPost>, id: Id): (seq<InvestorPost>, seq<SavedInvestorPost>) {
    (RemoveKey(posts, PostId, id), WithoutItem(saved, id))
  }

  /** Deleting a post removes it and every saved row pointing at it; the remaining rows
      still satisfy every constraint and the counters stay in step. */
  lemma DeleteCascades(posts: seq<InvestorPost>, saved: seq<SavedInvestorPost>, id: Id)
    requires Consistent(posts, saved)
    ensures Consistent(Delete(posts, saved, id).0, Delete(posts, saved, id).1)
    ensures Find(Delete(posts, saved, id).0, id).None?
    ensures Count(Delete(posts, saved, id).1, id) == 0
    ensures forall b :: b in saved && b.item != id ==> b in Delete(posts, saved, id).1
    ensures CountersMatch(posts, saved) ==> CountersMatch(Delete(posts, saved, id).0, Delete(posts, saved, id).1)
  {
    var (ps, ss) := Delete(posts, saved, id);
    RemoveKeyKeepsUniqueKeys(posts, PostId, id);
    UniqueWithoutItem(saved, id);
    CountWithoutItem(saved, id, id);
    forall b | b in ss ensures Find(ps, b.item).Some? {
      RemoveKeyKeeps(posts, PostId, id, b.item);
    }
    if CountersMatch(posts, saved) {
      forall j | 0 <= j < |ps| ensures ps[j].saved_count == Count(ss, ps[j].id) {
        assert ps[j] in posts;
        var m :| 0 <= m < |posts| && posts[m] == ps[j];
        CountWithoutItem(saved, id, ps[j].id);
      }
    }
  }
}
