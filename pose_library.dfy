/** The pose library: the catalogue filtered by category and by a search
    on either name, the selected card, and the form that adds a pose. */
module PoseLibrary {
  import opened Types
  import Text
  import Seqs

  /** The category chooser: 'Todos' or one category. */
  datatype CategoryFilter = AllCategories | OnlyCategory(category: Category)

  /** `pose` passes the category choice and its Portuguese or Sanskrit
      name contains the search term, both lower-cased. */
  predicate Matches(pose: Pose, filter: CategoryFilter, searchTerm: string)
  {
    (filter.AllCategories? || pose.category == filter.category)
    && (Text.Contains(Text.Lower(pose.portugueseName), Text.Lower(searchTerm))
        || Text.Contains(Text.Lower(pose.sanskritName), Text.Lower(searchTerm)))
  }

  /** `filteredPoses`: the matching poses, in catalogue order. */
  function FilteredPoses(poses: seq<Pose>, filter: CategoryFilter, searchTerm: string): (r: seq<Pose>)
    ensures Seqs.IsSubseq(r, poses)
    ensures forall p :: p in r <==> p in poses && Matches(p, filter, searchTerm)
    ensures forall p :: multiset(r)[p] == if Matches(p, filter, searchTerm) then multiset(poses)[p] else 0
  {
    Seqs.FilterIsSubseq(poses, p => Matches(p, filter, searchTerm));
    Seqs.FilterCountsAll(poses, p => Matches(p, filter, searchTerm));
    Seqs.Filter(poses, p => Matches(p, filter, searchTerm))
  }

  /** With 'Todos' and an empty search the whole catalogue is shown. */
  lemma EmptySearchShowsAll(poses: seq<Pose>)
    ensures FilteredPoses(poses, AllCategories, "") == poses
  {
    forall i | 0 <= i < |poses| ensures Matches(poses[i], AllCategories, "") {
      assert Text.StartsWith(Text.Lower(poses[i].portugueseName), "");
    }
    Seqs.FilterAll(poses, p => Matches(p, AllCategories, ""));
  }

  /** A category choice shows only poses of that category. */
  lemma CategoryIsRespected(poses: seq<Pose>, category: Category, searchTerm: string)
    ensures forall p :: p in FilteredPoses(poses, OnlyCategory(category), searchTerm) ==> p.category == category
  {
  }

  /** The search ignores case: a term and its lower-cased form find the
      same poses. */
  lemma SearchIgnoresCase(poses: seq<Pose>, filter: CategoryFilter, searchTerm: string)
    ensures FilteredPoses(poses, filter, Text.Lower(searchTerm)) == FilteredPoses(poses, filter, searchTerm)
  {
    Text.LowerIdempotent(searchTerm);
    Seqs.FilterSameTest(poses, p => Matches(p, filter, Text.Lower(searchTerm)), p => Matches(p, filter, searchTerm));
  }

  /** `handleCardClick`: clicking the selected card deselects it, clicking
      any other selects it. */
  function CardClick(selected: Option<string>, poseId: string): (r: Option<string>)
    ensures selected == Some(poseId) ==> r.None?
    ensures selected != Some(poseId) ==> r == Some(poseId)
  {
    if selected == Some(poseId) then None else Some(poseId)
  }

  /** Two clicks on a card restore the selection when it was either that
      card or nothing. */
  lemma CardClickTwice(selected: Option<string>, poseId: string)
    requires selected.None? || selected == Some(poseId)
    ensures CardClick(CardClick(selected, poseId), poseId) == selected
  {
  }

  predicate NonEmpty(s: string)
  {
    s != []
  }

  /** The benefits typed as a comma-separated list: each piece trimmed,
      the empty ones dropped, every other one kept as often as typed and
      in the order typed. */
  function ParseBenefits(input: string): (r: seq<string>)
    ensures forall b :: b in r ==> b != [] && !Text.IsWhitespace(b[0]) && !Text.IsWhitespace(b[|b| - 1])
    ensures Seqs.IsSubseq(r, Seqs.Map(Text.Split(input, ','), Text.Trim))
    ensures forall b :: multiset(r)[b] == if b != [] then multiset(Seqs.Map(Text.Split(input, ','), Text.Trim))[b] else 0
  {
    var pieces := Seqs.Map(Text.Split(input, ','), Text.Trim);
    Seqs.FilterIsSubseq(pieces, NonEmpty);
    KeptPieces(pieces);
    Seqs.Filter(pieces, NonEmpty)
  }

  /** Dropping the empty pieces keeps every other piece as often as it occurs. */
  lemma KeptPieces(pieces: seq<string>)
    ensures forall b :: multiset(Seqs.Filter(pieces, NonEmpty))[b] == if b != [] then multiset(pieces)[b] else 0
  {
    Seqs.FilterCountsAll(pieces, NonEmpty);
  }

  /** A list of trimmed, non-empty benefits without commas, written out
      joined by commas, parses back to itself. */
  lemma ParseJoinedBenefits(benefits: seq<string>)
    requires |benefits| >= 1
    requires forall i :: 0 <= i < |benefits| ==>
      benefits[i] != [] && ',' !in benefits[i]
      && !Text.IsWhitespace(benefits[i][0]) && !Text.IsWhitespace(benefits[i][|benefits[i]| - 1])
    ensures ParseBenefits(Text.Join(benefits, [','])) == benefits
  {
    Text.SplitJoin(benefits, ',');
    assert Text.Split(Text.Join(benefits, [',']), ',') == benefits;
    var trimmed := Seqs.Map(benefits, Text.Trim);
    forall i | 0 <= i < |benefits| ensures trimmed[i] == benefits[i] {
      Text.TrimOfTrimmed(benefits[i]);
    }
    assert trimmed == benefits;
    Seqs.FilterAll(benefits, NonEmpty);
    assert Seqs.Filter(trimmed, NonEmpty) == benefits;
  }

  /** The add-pose form: what the user filled in, each field possibly
      left empty. */
  datatype PoseForm = PoseForm(
    portugueseName: Option<string>,
    sanskritName: Option<string>,
    difficulty: Difficulty,
    category: Category,
    description: Option<string>,
    durationDefault: Option<int>,
    thumbnailUrl: Option<string>,
    videoEmbedUrl: Option<string>)

  const DefaultVideo := "https://www.youtube.com/embed/v7AYKMP6rOE"
  const DefaultHold := 60

  /** `handleAddPose`: the pose the form describes, or nothing (the alert)
      when either name or the thumbnail is missing. `now` stands for
      `Date.now()`, which gives the id. */
  function HandleAddPose(form: PoseForm, benefitsInput: string, now: nat): (r: Option<Pose>)
    ensures r.None? <==> Falsy(form.portugueseName) || Falsy(form.sanskritName) || Falsy(form.thumbnailUrl)
    ensures r.Some? ==>
      && r.value.portugueseName == form.portugueseName.value
      && r.value.sanskritName == form.sanskritName.value
      && r.value.media.thumbnailUrl == form.thumbnailUrl.value
      && r.value.difficulty == form.difficulty && r.value.category == form.category
      && r.value.benefits == ParseBenefits(benefitsInput)
      && r.value.description == OrElse(form.description, "")
      && r.value.media.videoEmbedUrl == OrElse(form.videoEmbedUrl, DefaultVideo)
      && (if form.durationDefault.None? || form.durationDefault.value == 0 then r.value.durationDefault == DefaultHold
          else r.value.durationDefault == form.durationDefault.value)
  {
    if Falsy(form.portugueseName) || Falsy(form.sanskritName) || Falsy(form.thumbnailUrl) then None
    else
      var hold := if form.durationDefault.None? || form.durationDefault.value == 0 then DefaultHold else form.durationDefault.value;
      Some(Pose(
        Text.NatToString(now),
        form.sanskritName.value,
        form.portugueseName.value,
        form.difficulty,
        form.category,
        ParseBenefits(benefitsInput),
        Media(form.thumbnailUrl.value, OrElse(form.videoEmbedUrl, DefaultVideo)),
        hold,
        OrElse(form.description, "")))
  }

  /** An added pose always has a hold time and a video: neither is left
      zero or empty. */
  lemma AddedPoseIsComplete(form: PoseForm, benefitsInput: string, now: nat)
    ensures var r := HandleAddPose(form, benefitsInput, now);
      r.Some? ==> r.value.durationDefault != 0 && r.value.media.videoEmbedUrl != ""
  {
  }
}
