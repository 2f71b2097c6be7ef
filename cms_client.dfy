/** The CMS client the content provider uses. Every call goes through a guard
    that turns an "unknown content type" failure into an empty result; each
    getter then catches any remaining failure and answers `null` or `[]`. */
module CmsClient {
  import opened Wrappers
  import opened JsStrings
  import opened ContentTypes

  const UnknownContentType: string := "unknownContentType"

  /** `error.message && error.message.includes('unknownContentType')`. */
  predicate IsUnknownContentType(thrown: Thrown) {
    thrown.ErrorObject? && thrown.message != "" && Includes(thrown.message, UnknownContentType)
  }

  /** `safeGetEntries`: the SDK call's outcome is given as `response`. */
  function SafeGetEntries<F>(response: Completion<Entries<F>>): (r: Completion<Entries<F>>)
    ensures response.Normal? ==> r == response
    ensures response.Abrupt? && IsUnknownContentType(response.thrown) ==> r == Normal(Entries(Some([])))
    ensures response.Abrupt? && !IsUnknownContentType(response.thrown) ==> r == response
  {
    match response
    case Normal(_) => response
    case Abrupt(thrown) =>
      if IsUnknownContentType(thrown) then Normal(Entries(Some([]))) else response
  }

  /** `entries.items[0]?.fields || null` inside a try/catch that answers `null`:
      the first entry's fields when there is one, else `null` (`None`). */
  function FirstFields<F>(response: Completion<Entries<F>>): (r: Option<F>)
    ensures r.Some? <==>
      response.Normal? && response.value.items.Some? && response.value.items.value != []
      && response.value.items.value[0].fields.Some?
    ensures r.Some? ==> r == response.value.items.value[0].fields
  {
    match SafeGetEntries(response)
    case Abrupt(_) => None
    case Normal(entries) =>
      match entries.items
      case None => None  // reading `[0]` of undefined throws; the catch answers null
      case Some(items) => if items == [] then None else items[0].fields
  }

  /** `getCarouselImages`: every entry's fields in query order, or `[]` on any failure. */
  function AllFields<F>(response: Completion<Entries<F>>): (r: seq<Option<F>>)
    ensures response.Normal? && response.value.items.Some? ==>
      |r| == |response.value.items.value|
      && forall i :: 0 <= i < |r| ==> r[i] == response.value.items.value[i].fields
    ensures !(response.Normal? && response.value.items.Some?) ==> r == []
  {
    match SafeGetEntries(response)
    case Abrupt(_) => []
    case Normal(entries) =>
      match entries.items
      case None => []
      case Some(items) => FieldsOf(items)
  }

  function GetHeroImage(response: Completion<Entries<HeroImage>>): Option<HeroImage> {
    FirstFields(response)
  }

  function GetProjectImage(response: Completion<Entries<ProjectImage>>): Option<ProjectImage> {
    FirstFields(response)
  }

  function GetCarouselImages(response: Completion<Entries<CarouselImage>>): seq<Option<CarouselImage>> {
    AllFields(response)
  }

  function GetConstructionVideo(response: Completion<Entries<ConstructionVideo>>): Option<ConstructionVideo> {
    FirstFields(response)
  }
}
