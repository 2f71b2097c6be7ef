/** The content aggregator: one state cell holding the snapshot of all CMS
    content the page needs. It starts LOADING; one fetch per mount settles the
    four categories independently (each failure replaced by that category's
    own fallback) and overwrites the cell once with a READY snapshot. */
module ContentfulProvider {
  import opened Wrappers
  import opened ContentTypes
  import CmsClient

  datatype Snapshot = Snapshot(
    heroImage: Option<HeroImage>,
    projectImage: Option<ProjectImage>,
    carouselImages: seq<Option<CarouselImage>>,
    constructionVideo: Option<ConstructionVideo>,
    loading: bool,
    error: Option<string>)

  const UnknownError: string := "Unknown error"

  /** The value consumers read when no provider is above them. */
  function DefaultContextValue(): (s: Snapshot)
    ensures s.loading && s.error.None?
  {
    Snapshot(None, None, [], None, true, None)
  }

  /** The provider's initial state: nothing fetched, still loading. */
  function InitialSnapshot(): (s: Snapshot)
    ensures s == DefaultContextValue()
    ensures s.heroImage.None? && s.projectImage.None? && s.carouselImages == []
    ensures s.constructionVideo.None? && s.loading && s.error.None?
  {
    Snapshot(None, None, [], None, true, None)
  }

  /** `promise.catch(() => fallback)`: a settled category keeps its value, a failed one
      takes its fallback. */
  function Recover<T>(settled: Completion<T>, fallback: T): (v: T)
    ensures settled.Normal? ==> v == settled.value
    ensures settled.Abrupt? ==> v == fallback
  {
    match settled
    case Normal(x) => x
    case Abrupt(_) => fallback
  }

  /** The message stored when the aggregation step itself throws. */
  function ErrorText(thrown: Thrown): (msg: string)
    ensures thrown.ErrorObject? ==> msg == thrown.message
    ensures thrown.NonErrorValue? ==> msg == UnknownError
  {
    match thrown
    case ErrorObject(m) => m
    case NonErrorValue => UnknownError
  }

  /** The snapshot `fetchContentfulData` stores, from the four settled category fetches
      and the outcome of the aggregation step (`aggregate` is the value it throws, if it does). */
  function Settle(
    hero: Completion<Option<HeroImage>>,
    project: Completion<Option<ProjectImage>>,
    carousel: Completion<seq<Option<CarouselImage>>>,
    video: Completion<Option<ConstructionVideo>>,
    aggregate: Option<Thrown>): (s: Snapshot)
    ensures !s.loading
    ensures aggregate.None? ==> (s.error.None?
      && s.heroImage == Recover(hero, None)
      && s.projectImage == Recover(project, None)
      && s.carouselImages == Recover(carousel, [])
      && s.constructionVideo == Recover(video, None))
    ensures aggregate.Some? ==> (s.error == Some(ErrorText(aggregate.value))
      && s.heroImage.None? && s.projectImage.None? && s.carouselImages == [] && s.constructionVideo.None?)
  {
    match aggregate
    case None =>
      Snapshot(Recover(hero, None), Recover(project, None), Recover(carousel, []),
               Recover(video, None), false, None)
    case Some(thrown) =>
      Snapshot(None, None, [], None, false, Some(ErrorText(thrown)))
  }

  /** A failing category changes only its own slot of the snapshot. */
  lemma CategoryFailureIsolated(
    hero: Completion<Option<HeroImage>>, project: Completion<Option<ProjectImage>>,
    carousel: Completion<seq<Option<CarouselImage>>>, video: Completion<Option<ConstructionVideo>>,
    thrown: Thrown)
    ensures var ok := Settle(hero, project, carousel, video, None);
      && Settle(Abrupt(thrown), project, carousel, video, None) == ok.(heroImage := None)
      && Settle(hero, Abrupt(thrown), carousel, video, None) == ok.(projectImage := None)
      && Settle(hero, project, Abrupt(thrown), video, None) == ok.(carouselImages := [])
      && Settle(hero, project, carousel, Abrupt(thrown), None) == ok.(constructionVideo := None)
  {
  }

  /** With the CMS client's getters, which never reject, the snapshot holds exactly
      what each getter answered, and no error. */
  lemma SettleFromClient(
    hero: Completion<Entries<HeroImage>>, project: Completion<Entries<ProjectImage>>,
    carousel: Completion<Entries<CarouselImage>>, video: Completion<Entries<ConstructionVideo>>)
    ensures var s := Settle(
        Normal(CmsClient.GetHeroImage(hero)), Normal(CmsClient.GetProjectImage(project)),
        Normal(CmsClient.GetCarouselImages(carousel)), Normal(CmsClient.GetConstructionVideo(video)), None);
      && !s.loading && s.error.None?
      && (s.heroImage.Some? <==> hero.Normal? && hero.value.items.Some? && hero.value.items.value != []
                                 && hero.value.items.value[0].fields.Some?)
      && (carousel.Abrupt? ==> s.carouselImages == [])
  {
  }

  /** The provider component's state cell. */
  class Provider {
    var data: Snapshot
    /** How many times the cell has been overwritten since mount. */
    var updates: nat

    constructor ()
      ensures data == InitialSnapshot() && updates == 0
    {
      data := InitialSnapshot();
      updates := 0;
    }

    /** The mount effect `fetchContentfulData`, once its four fetches have settled. */
    method FetchContentfulData(
      hero: Completion<Option<HeroImage>>,
      project: Completion<Option<ProjectImage>>,
      carousel: Completion<seq<Option<CarouselImage>>>,
      video: Completion<Option<ConstructionVideo>>,
      aggregate: Option<Thrown>)
      requires data.loading && updates == 0
      modifies this
      ensures data == Settle(hero, project, carousel, video, aggregate)
      ensures !data.loading && updates == 1
    {
      var next: Snapshot;
      if aggregate.None? {
        next := Snapshot(Recover(hero, None), Recover(project, None), Recover(carousel, []),
                         Recover(video, None), false, None);
      } else {
        next := Snapshot(None, None, [], None, false, Some(ErrorText(aggregate.value)));
      }
      data := next;
      updates := updates + 1;
    }
  }
}
