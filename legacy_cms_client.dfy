/** The older CMS client: no unknown-content-type guard, and the singular
    getters answer `undefined` (not `null`) when the query has no entry. */
module LegacyCmsClient {
  import opened Wrappers
  import opened ContentTypes
  import CmsClient

  /** A singular getter's answer: the fields, `undefined`, or `null` after a caught failure. */
  datatype Lookup<F> = Found(fields: F) | Undefined | Null

  /** `entries.items[0]?.fields` inside a try/catch that answers `null`. */
  function FirstFields<F>(response: Completion<Entries<F>>): (r: Lookup<F>)
    ensures r.Null? <==> response.Abrupt? || response.value.items.None?
    ensures r.Found? <==>
      response.Normal? && response.value.items.Some? && response.value.items.value != []
      && response.value.items.value[0].fields.Some?
    ensures r.Found? ==> Some(r.fields) == response.value.items.value[0].fields
  {
    match response
    case Abrupt(_) => Null
    case Normal(entries) =>
      match entries.items
      case None => Null  // reading `[0]` of undefined throws inside the try
      case Some(items) =>
        if items == [] then Undefined
        else
          match items[0].fields
          case Some(f) => Found(f)
          case None => Undefined
  }

  /** `getCarouselImages`: every entry's fields in query order, or `[]` on any failure. */
  function AllFields<F>(response: Completion<Entries<F>>): (r: seq<Option<F>>)
    ensures response.Normal? && response.value.items.Some? ==>
      |r| == |response.value.items.value|
      && forall i :: 0 <= i < |r| ==> r[i] == response.value.items.value[i].fields
    ensures !(response.Normal? && response.value.items.Some?) ==> r == []
  {
    match response
    case Abrupt(_) => []
    case Normal(entries) =>
      match entries.items
      case None => []
      case Some(items) => FieldsOf(items)
  }

  /** The two clients agree on every found value and on every carousel list; they
      differ only in how an absent entry is spelled (`undefined` here, `null` there). */
  lemma ClientsAgree<F>(response: Completion<Entries<F>>)
    ensures FirstFields(response).Found? <==> CmsClient.FirstFields(response).Some?
    ensures FirstFields(response).Found? ==> CmsClient.FirstFields(response) == Some(FirstFields(response).fields)
    ensures AllFields(response) == CmsClient.AllFields(response)
  {
  }
}
