/** The `Pitch` and `SavedPitch` tables. */
module PitchModels {
  import opened Common
  import opened Accounts
  import opened Bookmarks
  import opened Tables

  /** Column widths of the `CharField`s, which the serializer enforces on input. */
  const TitleMax := 80
  const DescriptionMax := 300
  const FundingStageMax := 30
  const AskMax := 150

  /** A pitch row. `video` and `thumbnail` are the stored file references. */
  datatype Pitch = Pitch(
    id: Id,
    developer: User,
    title: string,
    description: string,
    tags: seq<string>,
    funding_stage: string,
    ask: string,
    video: string,
    thumbnail: Option<string>,
    views: int,
    created_at: Timestamp)

  /** A `SavedPitch` row is a bookmark whose user is the investor and whose item is the pitch. */
  type SavedPitch = Bookmark

  /** The fields a client may send when creating a pitch (`PitchCreateSerializer`).
      `tags` is `None` when omitted. */
  datatype PitchInput = PitchInput(
    title: string,
    description: string,
    tags: Option<seq<string>>,
    funding_stage: string,
    ask: string,
    video: Option<string>,
    thumbnail: Option<string>)

  /** What the serializer accepts: a non-blank title and description within their widths,
      the optional texts within theirs, and a video file (the field is required). */
  predicate Admissible(input: PitchInput) {
    && 0 < |input.title| <= TitleMax
    && 0 < |input.description| <= DescriptionMax
    && |input.funding_stage| <= FundingStageMax
    && |input.ask| <= AskMax
    && Given(input.video)
  }

  /** Every stored pitch respects the column widths. */
  predicate WellFormed(p: Pitch) {
    |p.title| <= TitleMax && |p.description| <= DescriptionMax
    && |p.funding_stage| <= FundingStageMax && |p.ask| <= AskMax
  }

  /** The row the database stores for an admissible input: defaults filled in and the owner
      taken from the caller. */
  function NewPitch(id: Id, developer: User, input: PitchInput, now: Timestamp): (p: Pitch)
    requires Admissible(input)
    ensures WellFormed(p)
    ensures p.id == id && p.developer == developer && p.created_at == now
    ensures p.views == 0
    ensures p.tags == (if input.tags.Some? then input.tags.value else [])
    ensures p.title == input.title && p.description == input.description
  {
    Pitch(id, developer, input.title, input.description, input.tags.GetOr([]),
          input.funding_stage, input.ask, input.video.value, input.thumbnail, 0, now)
  }

  function PitchId(p: Pitch): Id {
    p.id
  }

  /** `Pitch.objects.get(id=id)`, `get_object_or_404(Pitch, id=id)`. */
  function Find(pitches: seq<Pitch>, id: Id): Option<nat> {
    IndexOf(pitches, PitchId, id)
  }

  /** The constraints the database keeps on the two tables: primary key, `unique_together`
      and the foreign key from every saved row to an existing pitch. */
  predicate Consistent(pitches: seq<Pitch>, saved: seq<SavedPitch>) {
    && UniqueKeys(pitches, PitchId)
    && Unique(saved)
    && forall b :: b in saved ==> Find(pitches, b.item).Some?
  }

  /** `pitch.delete()` with its cascade: the pitch and every `SavedPitch` row of it go. */
  function Delete(pitches: seq<Pitch>, saved: seq<SavedPitch>, id: Id): (seq<Pitch>, seq<SavedPitch>) {
    (RemoveKey(pitches, PitchId, id), WithoutItem(saved, id))
  }

  /** Deleting a pitch removes it and leaves no saved row pointing at it; the remaining
      rows still satisfy every constraint. */
  lemma DeleteCascades(pitches: seq<Pitch>, saved: seq<SavedPitch>, id: Id)
    requires Consistent(pitches, saved)
    ensures Consistent(Delete(pitches, saved, id).0, Delete(pitches, saved, id).1)
    ensures Find(Delete(pitches, saved, id).0, id).None?
    ensures Count(Delete(pitches, saved, id).1, id) == 0
    ensures forall b :: b in saved && b.item != id ==> b in Delete(pitches, saved, id).1
  {
    var (ps, ss) := Delete(pitches, saved, id);
    RemoveKeyKeepsUniqueKeys(pitches, PitchId, id);
    UniqueWithoutItem(saved, id);
    CountWithoutItem(saved, id, id);
    forall b | b in ss ensures Find(ps, b.item).Some? {
      RemoveKeyKeeps(pitches, PitchId, id, b.item);
    }
  }
}
