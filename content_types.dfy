/** The records the site reads from the headless CMS, as they arrive: every
    field the CMS may leave out is optional, and an asset link whose asset is
    not resolved carries no `fields`. */
module ContentTypes {
  import opened Wrappers

  /** The `file` of an asset: its protocol-relative URL and its file name. */
  datatype FileRef = FileRef(url: Option<string>, fileName: Option<string>)

  datatype AssetFields = AssetFields(file: Option<FileRef>, title: Option<string>, description: Option<string>)

  /** A link to an asset; `fields` is absent when the asset is not resolved. */
  datatype AssetLink = AssetLink(fields: Option<AssetFields>)

  datatype HeroImage = HeroImage(
    title: string, description: Option<string>,
    image: Option<AssetLink>, mobileImage: Option<AssetLink>)

  datatype ProjectImage = ProjectImage(
    title: string, description: Option<string>, image: Option<AssetLink>,
    floorPlanPdf: Option<AssetLink>, brochurePdf: Option<AssetLink>)

  datatype CarouselImage = CarouselImage(
    title: string, description: Option<string>, image: Option<AssetLink>, order: int)

  /** `isVisible` is a flag the editors may leave unset. */
  datatype ConstructionVideo = ConstructionVideo(
    title: string, description: Option<string>, video: Option<AssetLink>,
    thumbnail: Option<AssetLink>, isVisible: Option<bool>)

  /** One entry of a CMS query result; `fields` may be missing. */
  datatype Entry<F> = Entry(fields: Option<F>)

  /** A CMS query result; `items` may be missing from a malformed response. */
  datatype Entries<F> = Entries(items: Option<seq<Entry<F>>>)

  /** Every entry's `fields`, in query order (`items.map(item => item.fields)`). */
  function FieldsOf<F>(items: seq<Entry<F>>): (fields: seq<Option<F>>)
    ensures |fields| == |items|
    ensures forall i :: 0 <= i < |items| ==> fields[i] == items[i].fields
  {
    if items == [] then [] else [items[0].fields] + FieldsOf(items[1..])
  }
}
