/** The project section: its picture comes from the CMS project image when one
    with a file is available, else from a bundled picture; its two download
    buttons (floor plans and brochure) each fetch a PDF asset when its URL is
    known, showing a loading state that a timer clears again. */
module ProjectSection {
  import opened Wrappers
  import opened JsStrings
  import opened ContentTypes

  const FallbackImage: string := "/images/project/4.png"
  const FloorPlanFileName: string := "plantas-goyena.pdf"
  const BrochureFileName: string := "brochure-goyena.pdf"

  /** The CMS project image has an image with resolved fields and a file. */
  predicate HasImageFile(projectImage: Option<ProjectImage>) {
    projectImage.Some? && projectImage.value.image.Some? && projectImage.value.image.value.fields.Some?
    && projectImage.value.image.value.fields.value.file.Some?
  }

  /** `getProjectImageUrl`: the CMS picture when there is a file, else the bundled one.
      A file without a URL yields `https:undefined`. */
  function ProjectImageUrl(projectImage: Option<ProjectImage>): (url: string)
    ensures HasImageFile(projectImage) ==>
      url == "https:" + Interpolate(projectImage.value.image.value.fields.value.file.value.url)
    ensures !HasImageFile(projectImage) ==> url == FallbackImage
    ensures url != FallbackImage <==> StartsWith(url, "https:")
  {
    if HasImageFile(projectImage) then
      var u := "https:" + Interpolate(projectImage.value.image.value.fields.value.file.value.url);
      assert u[..6] == "https:" && u[0] != FallbackImage[0];
      u
    else
      assert FallbackImage[0] == '/';
      FallbackImage
  }

  datatype PdfKind = FloorPlan | Brochure

  /** What a download hands to the browser: the absolute PDF address and the saved file name. */
  datatype DownloadRequest = DownloadRequest(url: string, fileName: string)

  function DefaultFileName(kind: PdfKind): string {
    match kind
    case FloorPlan => FloorPlanFileName
    case Brochure => BrochureFileName
  }

  /** The asset a button downloads. */
  function PdfAsset(projectImage: Option<ProjectImage>, kind: PdfKind): Option<AssetLink> {
    if projectImage.None? then None
    else match kind
      case FloorPlan => projectImage.value.floorPlanPdf
      case Brochure => projectImage.value.brochurePdf
  }

  /** The asset's file URL, when the whole optional chain is present. */
  function PdfFileUrl(asset: Option<AssetLink>): Option<string> {
    if asset.Some? && asset.value.fields.Some? && asset.value.fields.value.file.Some? then
      asset.value.fields.value.file.value.url
    else None
  }

  /** The request a button makes: none unless the file URL is truthy; then the URL with the
      `https:` scheme and the asset's own file name or the button's default name. */
  function PdfDownload(asset: Option<AssetLink>, defaultName: string): (r: Option<DownloadRequest>)
    ensures r.Some? <==> Truthy(PdfFileUrl(asset))
    ensures r.Some? ==> r.value.url == "https:" + PdfFileUrl(asset).value
    ensures r.Some? ==> var file := asset.value.fields.value.file.value;
      r.value.fileName == (if Truthy(file.fileName) then file.fileName.value else defaultName)
    ensures r.Some? && defaultName != "" ==> r.value.fileName != ""
  {
    var url := PdfFileUrl(asset);
    if Truthy(url) then
      var file := asset.value.fields.value.file.value;
      Some(DownloadRequest("https:" + url.value, Or(file.fileName, defaultName)))
    else None
  }

  /** The section's two loading flags and the reset timers the handlers have scheduled. */
  class Downloads {
    var isFloorPlanLoading: bool
    var isBrochureLoading: bool
    var floorPlanResetPending: bool
    var brochureResetPending: bool

    function Loading(kind: PdfKind): bool
      reads this
    {
      match kind
      case FloorPlan => isFloorPlanLoading
      case Brochure => isBrochureLoading
    }

    function ResetPending(kind: PdfKind): bool
      reads this
    {
      match kind
      case FloorPlan => floorPlanResetPending
      case Brochure => brochureResetPending
    }

    /** A flag is set only while its reset timer is pending. */
    ghost predicate Valid()
      reads this
    {
      (isFloorPlanLoading ==> floorPlanResetPending) && (isBrochureLoading ==> brochureResetPending)
    }

    /** A button is disabled while its own flag is set. */
    function Disabled(kind: PdfKind): (d: bool)
      reads this
      ensures d <==> Loading(kind)
    {
      Loading(kind)
    }

    constructor ()
      ensures !isFloorPlanLoading && !isBrochureLoading
      ensures !floorPlanResetPending && !brochureResetPending
      ensures Valid()
    {
      isFloorPlanLoading := false;
      isBrochureLoading := false;
      floorPlanResetPending := false;
      brochureResetPending := false;
    }

    /** A press of the `kind` button. A disabled button ignores it; without a PDF URL only a
        warning is logged and nothing changes; otherwise the flag is set, the PDF is fetched
        (`fetchOk` says whether that succeeded) and the reset timer is scheduled in every case. */
    method Press(kind: PdfKind, projectImage: Option<ProjectImage>, fetchOk: bool)
      returns (saved: Option<DownloadRequest>)
      requires Valid()
      modifies this
      ensures Valid()
      ensures var request := PdfDownload(PdfAsset(projectImage, kind), DefaultFileName(kind));
        if old(Loading(kind)) || request.None? then
          saved.None? && Loading(kind) == old(Loading(kind)) && ResetPending(kind) == old(ResetPending(kind))
        else
          Loading(kind) && ResetPending(kind) && (saved.Some? <==> fetchOk) && (fetchOk ==> saved == request)
      ensures forall other :: other != kind ==>
        Loading(other) == old(Loading(other)) && ResetPending(other) == old(ResetPending(other))
    {
      saved := None;
      if Loading(kind) {
        return;
      }
      var request := PdfDownload(PdfAsset(projectImage, kind), DefaultFileName(kind));
      if request.Some? {
        match kind {
          case FloorPlan => isFloorPlanLoading := true;
          case Brochure => isBrochureLoading := true;
        }
        if fetchOk {
          saved := request;
        }
        match kind {
          case FloorPlan => floorPlanResetPending := true;
          case Brochure => brochureResetPending := true;
        }
      }
    }

    /** The 800-millisecond reset timer of `kind` fires. */
    method ResetFires(kind: PdfKind)
      requires Valid() && ResetPending(kind)
      modifies this
      ensures !Loading(kind) && !ResetPending(kind) && Valid()
      ensures forall other :: other != kind ==>
        Loading(other) == old(Loading(other)) && ResetPending(other) == old(ResetPending(other))
    {
      match kind {
        case FloorPlan =>
          isFloorPlanLoading := false;
          floorPlanResetPending := false;
        case Brochure =>
          isBrochureLoading := false;
          brochureResetPending := false;
      }
    }
  }

  /** The default file names are the ones the site offers for each document, and an asset
      with a URL but no file name is saved under them. */
  lemma DownloadDefaults(url: string)
    requires url != ""
    ensures var asset := Some(AssetLink(Some(AssetFields(Some(FileRef(Some(url), None)), None, None))));
      && PdfDownload(asset, DefaultFileName(FloorPlan)) == Some(DownloadRequest("https:" + url, "plantas-goyena.pdf"))
      && PdfDownload(asset, DefaultFileName(Brochure)) == Some(DownloadRequest("https:" + url, "brochure-goyena.pdf"))
  {
  }
}
