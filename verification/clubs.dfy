/** `ClubsViewModel` and `ClubScreen`: the clubs the user belongs to, the
    one whose material is shown, and each material's card. */
module Clubs {
  import opened Outcomes
  import opened Text
  import opened Records
  import opened Api
  import AuthRepository

  /** `ClubsUiState`. */
  datatype ClubsUiState = ClubsUiState(
    isLoading: bool, clubs: seq<Club>, selectedClub: Option<Club>, error: Option<string>)

  const Default := ClubsUiState(false, [], None, None)

  /** `firstOrNull`. */
  function FirstOrNull(clubs: seq<Club>): (c: Option<Club>)
    ensures c.None? <==> |clubs| == 0
    ensures c.Some? ==> c.value == clubs[0]
  {
    if |clubs| == 0 then None else Some(clubs[0])
  }

  /** `loadClubs` as one step: the state is reset to loading, then a
      success lists the clubs with the first one selected, and an error
      shows only its message. */
  function LoadClubs(session: Session, api: Call<ClubsResponse>): (s: ClubsUiState)
    ensures !s.isLoading
    ensures s.error.None? <==> session.Some? && api.Returned? && api.body.success
    ensures s.error.None? ==> s.clubs == api.body.clubs && s.selectedClub == FirstOrNull(api.body.clubs)
    ensures s.error.Some? ==> s.clubs == [] && s.selectedClub.None?
  {
    var started := Default.(isLoading := true);
    match AuthRepository.GetUserClubs(session, api).result
    case Success(clubs) => started.(isLoading := false, clubs := clubs, selectedClub := FirstOrNull(clubs))
    case Error(message) => Default.(error := Some(message))
    case Loading => started
  }

  /** `selectClub`. */
  function SelectClub(s: ClubsUiState, club: Club): (t: ClubsUiState)
    ensures t.selectedClub == Some(club)
    ensures t.clubs == s.clubs && t.isLoading == s.isLoading && t.error == s.error
  {
    s.(selectedClub := Some(club))
  }

  /** The selected club, when there is one, is one of the listed clubs. */
  predicate SelectionListed(s: ClubsUiState)
  {
    s.selectedClub.Some? ==> s.selectedClub.value in s.clubs
  }

  /** A load and a pick from the club selector (which offers only the
      listed clubs) keep the selection among the listed clubs; after a
      successful load of a non-empty list, something is always selected. */
  lemma SelectionStaysListed(s: ClubsUiState, session: Session, api: Call<ClubsResponse>, k: nat)
    ensures SelectionListed(LoadClubs(session, api))
    ensures var t := LoadClubs(session, api); t.error.None? && |t.clubs| > 0 ==> t.selectedClub.Some?
    ensures SelectionListed(s) && k < |s.clubs| ==> SelectionListed(SelectClub(s, s.clubs[k]))
  {
  }

  // ---------------------------------------------------------------------
  // Screen
  // ---------------------------------------------------------------------

  /** One material card: the week, the date badge and the resource link. */
  datatype MaterialCard = MaterialCard(title: string, week: string, date: string, description: string, resource: string)

  /** The date badge: the timestamp up to its `T`. */
  function DateBadge(createdAt: string): (d: string)
    ensures d <= createdAt && 'T' !in d
    ensures 'T' in createdAt ==> createdAt[|d|] == 'T'
  {
    SubstringBefore(createdAt, 'T')
  }

  /** An ISO-8601 timestamp shows its calendar date. */
  lemma DateBadgeOfTimestamp(date: string, time: string)
    requires 'T' !in date
    ensures DateBadge(date + "T" + time) == date
  {
    var s := date + "T" + time;
    assert s[|date|] == 'T';
    assert s[..|date|] == date;
  }

  /** The link "Abrir recurso" opens: the file URL for a file resource,
      the URL otherwise. */
  function ResourceUrl(m: ClubMaterial): (url: string)
    ensures m.resourceType == "file" ==> url == m.fileUrl
    ensures m.resourceType != "file" ==> url == m.url
  {
    if m.resourceType == "file" then m.fileUrl else m.url
  }

  /** The button does something only when the link is not empty. */
  predicate OpensResource(m: ClubMaterial)
  {
    ResourceUrl(m) != ""
  }

  function CardOf(m: ClubMaterial): (c: MaterialCard)
    ensures c.week == "Semana: " + m.week && c.date == DateBadge(m.createdAt) && c.resource == ResourceUrl(m)
  {
    MaterialCard(m.title, "Semana: " + m.week, DateBadge(m.createdAt), m.description, ResourceUrl(m))
  }

  /** What `ClubScreen` shows. */
  datatype ClubsView =
    | Spinner
    | ErrorState(message: string, retry: string)
    | EmptyState(message: string)
    | ClubContent(selectorText: string, options: seq<string>, cards: seq<MaterialCard>)

  /** The screen: loading, then the error with a retry button, then the
      empty message, then the selector and the selected club's materials. */
  function Render(s: ClubsUiState): (v: ClubsView)
    ensures v.Spinner? <==> s.isLoading
    ensures v.ErrorState? <==> !s.isLoading && s.error.Some?
    ensures v.EmptyState? <==> !s.isLoading && s.error.None? && s.clubs == []
    ensures v.ClubContent? ==> |v.options| == |s.clubs| && forall k :: 0 <= k < |s.clubs| ==> v.options[k] == s.clubs[k].name
    ensures v.ClubContent? && s.selectedClub.None? ==> v.selectorText == "" && v.cards == []
    ensures v.ClubContent? && s.selectedClub.Some? ==>
      v.selectorText == s.selectedClub.value.name
      && |v.cards| == |s.selectedClub.value.materials|
      && forall k :: 0 <= k < |v.cards| ==> v.cards[k] == CardOf(s.selectedClub.value.materials[k])
  {
    if s.isLoading then Spinner
    else if s.error.Some? then ErrorState(s.error.value, "Reintentar")
    else if |s.clubs| == 0 then EmptyState("No estás asignado a ningún club")
    else
      var materials := match s.selectedClub case Some(c) => c.materials case None => [];
      ClubContent(
        match s.selectedClub case Some(c) => c.name case None => "",
        seq(|s.clubs|, k requires 0 <= k < |s.clubs| => s.clubs[k].name),
        seq(|materials|, k requires 0 <= k < |materials| => CardOf(materials[k])))
  }

  /** Right after a successful load of some clubs, the screen shows the
      first club's materials. */
  lemma LoadShowsFirstClub(session: Session, api: Call<ClubsResponse>)
    requires session.Some? && api.Returned? && api.body.success && |api.body.clubs| > 0
    ensures var v := Render(LoadClubs(session, api));
      v.ClubContent? && v.selectorText == api.body.clubs[0].name
      && |v.cards| == |api.body.clubs[0].materials|
  {
  }
}
