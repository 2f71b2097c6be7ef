/** Project entries from the CMS turned into the site's `Project` records:
    every missing field gets a fixed default, asset URLs get an `https:` scheme,
    and the fetchers answer an empty value instead of throwing. */
module ProjectEntries {
  import opened Wrappers
  import opened JsStrings

  // ------------------------------------------------------------ CMS side

  datatype Dimensions = Dimensions(width: int, height: int)
  datatype FileDetails = FileDetails(image: Option<Dimensions>)
  datatype ImageFile = ImageFile(url: Option<string>, details: Option<FileDetails>)
  datatype ImageFields = ImageFields(title: Option<string>, description: Option<string>, file: Option<ImageFile>)

  /** An image asset link; `fields` is absent when the asset is not resolved. */
  datatype ImageAsset = ImageAsset(fields: Option<ImageFields>)

  datatype ProjectFields = ProjectFields(
    title: Option<string>, slug: Option<string>, description: Option<string>,
    category: Option<seq<string>>, mainImage: Option<ImageAsset>,
    images: Option<seq<ImageAsset>>, order: Option<int>)

  datatype ProjectEntry = ProjectEntry(id: string, fields: ProjectFields)

  datatype ProjectQueryResult = ProjectQueryResult(items: Option<seq<ProjectEntry>>)

  // ------------------------------------------------------------ site side

  datatype SiteImage = SiteImage(url: string, width: int, height: int, title: string, description: Option<string>)

  datatype Project = Project(
    id: string, title: string, slug: string, description: string, category: seq<string>,
    mainImage: SiteImage, images: seq<SiteImage>, order: int)

  const DefaultImage: SiteImage :=
    SiteImage("/placeholder.jpg", 800, 600, "Placeholder Image", Some("This is a placeholder image"))

  // ------------------------------------------------------------ parsing

  /** `file?.details?.image`: the recorded size of an image file, if any. */
  function Dims(file: Option<ImageFile>): Option<Dimensions> {
    if file.Some? && file.value.details.Some? then file.value.details.value.image else None
  }

  function Width(file: Option<ImageFile>): Option<int> {
    match Dims(file)
    case Some(d) => Some(d.width)
    case None => None
  }

  function Height(file: Option<ImageFile>): Option<int> {
    match Dims(file)
    case Some(d) => Some(d.height)
    case None => None
  }

  /** One image asset's fields as a site image: `https:` and the file URL,
      800 by 600 when a size is absent or zero, and text defaults. */
  function ParseImage(f: ImageFields): (img: SiteImage)
    ensures StartsWith(img.url, "https:")
    ensures img.url[6..] == if f.file.Some? then Or(f.file.value.url, "") else ""
    ensures img.width != 0 && img.height != 0
    ensures img.title != "" && img.description.Some?
    ensures img.width == if Width(f.file).Some? && Width(f.file).value != 0 then Width(f.file).value else 800
    ensures img.height == if Height(f.file).Some? && Height(f.file).value != 0 then Height(f.file).value else 600
    ensures img.title == if Truthy(f.title) then f.title.value else "Project Image"
    ensures img.description == Some(if Truthy(f.description) then f.description.value else "")
  {
    var url := if f.file.Some? then Or(f.file.value.url, "") else "";
    SiteImage(
      "https:" + url,
      NumberOr(Width(f.file), 800),
      NumberOr(Height(f.file), 600),
      Or(f.title, "Project Image"),
      Some(Or(f.description, "")))
  }

  /** The main image: the placeholder when the link or its fields are missing. */
  function ParseMainImage(asset: Option<ImageAsset>): (img: SiteImage)
    ensures (asset.None? || asset.value.fields.None?) <==> img == DefaultImage
    ensures asset.Some? && asset.value.fields.Some? ==> img == ParseImage(asset.value.fields.value)
  {
    if asset.Some? && asset.value.fields.Some? then
      var img := ParseImage(asset.value.fields.value);
      assert img.url[0] == 'h' != DefaultImage.url[0];
      img
    else DefaultImage
  }

  /** The gallery: one site image per asset, in order. Reading `fields.file` of an
      unresolved asset throws a TypeError. */
  function ParseGallery(assets: seq<ImageAsset>): (r: Completion<seq<SiteImage>>)
    ensures r.Normal? <==> forall i :: 0 <= i < |assets| ==> assets[i].fields.Some?
    ensures r.Normal? ==> (|r.value| == |assets|
      && forall i :: 0 <= i < |assets| ==> r.value[i] == ParseImage(assets[i].fields.value))
  {
    if assets == [] then Normal([])
    else if assets[0].fields.None? then Abrupt(ReadOfUndefined)
    else
      match ParseGallery(assets[1..])
      case Abrupt(t) => Abrupt(t)
      case Normal(rest) => Normal([ParseImage(assets[0].fields.value)] + rest)
  }

  /** `parseProjectEntry`. */
  function ParseProjectEntry(entry: ProjectEntry): (r: Completion<Project>)
    ensures r.Normal? <==>
      (entry.fields.images.None? || ParseGallery(entry.fields.images.value).Normal?)
  {
    var f := entry.fields;
    var gallery := if f.images.Some? then ParseGallery(f.images.value) else Normal([]);
    match gallery
    case Abrupt(t) => Abrupt(t)
    case Normal(images) =>
      Normal(Project(
        Or(Some(entry.id), ""),
        Or(f.title, "Untitled Project"),
        Or(f.slug, ""),
        Or(f.description, ""),
        f.category.GetOr([]),
        ParseMainImage(f.mainImage),
        images,
        NumberOr(f.order, 0)))
  }

  /** Every missing field of a parsed entry takes its default, every present one is kept;
      the main image is the parsed link and the gallery has each asset's parsed image at
      its own position. */
  lemma ParsedProjectDefaults(entry: ProjectEntry)
    requires ParseProjectEntry(entry).Normal?
    ensures var p := ParseProjectEntry(entry).value;
      && p.id == entry.id
      && p.title == (if Truthy(entry.fields.title) then entry.fields.title.value else "Untitled Project")
      && p.slug == (if Truthy(entry.fields.slug) then entry.fields.slug.value else "")
      && p.description == (if Truthy(entry.fields.description) then entry.fields.description.value else "")
      && p.category == (if entry.fields.category.Some? then entry.fields.category.value else [])
      && p.order == (if entry.fields.order.Some? then entry.fields.order.value else 0)
      && p.title != ""
      && (entry.fields.images.None? ==> p.images == [])
      && (entry.fields.images.Some? ==> |p.images| == |entry.fields.images.value|)
      && p.mainImage == ParseMainImage(entry.fields.mainImage)
      && (entry.fields.images.Some? ==> p.images == ParseGallery(entry.fields.images.value).value)
      && (entry.fields.images.Some? ==> forall i :: 0 <= i < |p.images| ==>
            p.images[i] == ParseImage(entry.fields.images.value[i].fields.value))
  {
  }

  /** `parseProjectEntries`: no result or no items gives `[]`; otherwise one project per
      entry, in order, unless an entry throws. */
  function ParseProjectEntries(result: Option<ProjectQueryResult>): (r: Completion<seq<Project>>)
    ensures (result.None? || result.value.items.None?) ==> r == Normal([])
    ensures result.Some? && result.value.items.Some? && r.Normal? ==>
      |r.value| == |result.value.items.value|
      && forall i :: 0 <= i < |r.value| ==>
           ParseProjectEntry(result.value.items.value[i]) == Normal(r.value[i])
    ensures result.Some? && result.value.items.Some? ==>
      (r.Normal? <==> forall i :: 0 <= i < |result.value.items.value| ==>
                        ParseProjectEntry(result.value.items.value[i]).Normal?)
  {
    if result.None? || result.value.items.None? then Normal([])
    else ParseAll(result.value.items.value)
  }

  /** `items.map(parseProjectEntry)`: stops at the first entry that throws. */
  function ParseAll(items: seq<ProjectEntry>): (r: Completion<seq<Project>>)
    ensures r.Normal? <==> forall i :: 0 <= i < |items| ==> ParseProjectEntry(items[i]).Normal?
    ensures r.Normal? ==> (|r.value| == |items|
      && forall i :: 0 <= i < |items| ==> ParseProjectEntry(items[i]) == Normal(r.value[i]))
  {
    if items == [] then Normal([])
    else
      match ParseProjectEntry(items[0])
      case Abrupt(t) => Abrupt(t)
      case Normal(p) =>
        match ParseAll(items[1..])
        case Abrupt(t) => Abrupt(t)
        case Normal(rest) =>
          assert forall i :: 1 <= i < |items| ==> items[i] == items[1..][i - 1];
          Normal([p] + rest)
  }

  // ------------------------------------------------------------ fetchers

  /** `getAllProjects` (and `getProjectsByCategory`, which differs only in its query):
      the parsed projects, or `[]` when the query or the parsing throws. */
  function GetAllProjects(response: Completion<Option<ProjectQueryResult>>): (projects: seq<Project>)
    ensures response.Abrupt? ==> projects == []
    ensures response.Normal? && ParseProjectEntries(response.value).Normal? ==>
      projects == ParseProjectEntries(response.value).value
    ensures response.Normal? && ParseProjectEntries(response.value).Abrupt? ==> projects == []
  {
    match response
    case Abrupt(_) => []
    case Normal(result) =>
      match ParseProjectEntries(result)
      case Abrupt(_) => []
      case Normal(projects) => projects
  }

  /** `getProjectBySlug`: the first parsed project of the slug query, or `null`.
      The slug filter itself is applied by the CMS when it answers `response`. */
  function GetProjectBySlug(slug: string, response: Completion<Option<ProjectQueryResult>>): (p: Option<Project>)
    ensures p.Some? <==> GetAllProjects(response) != []
    ensures p.Some? ==> p.value == GetAllProjects(response)[0]
    ensures p.Some? ==> (response.Normal? && response.value.Some? && response.value.value.items.Some?
      && response.value.value.items.value != []
      && ParseProjectEntry(response.value.value.items.value[0]) == Normal(p.value))
  {
    var projects := GetAllProjects(response);
    if |projects| > 0 then Some(projects[0]) else None
  }

  // ------------------------------------------------------------ categories

  /** Every category of every project, concatenated in project order. */
  function AllCategoryMentions(projects: seq<Project>): seq<string> {
    if projects == [] then []
    else AllCategoryMentions(projects[..|projects| - 1]) + projects[|projects| - 1].category
  }

  /** The distinct elements of `xs` in order of first appearance (what a `Set` iterates). */
  function Distinct(xs: seq<string>): (d: seq<string>)
    ensures forall i, j :: 0 <= i < j < |d| ==> d[i] != d[j]
    ensures forall x :: x in d <==> x in xs
  {
    if xs == [] then []
    else
      var d := Distinct(xs[..|xs| - 1]);
      assert forall x :: x in xs <==> x in xs[..|xs| - 1] || x == xs[|xs| - 1] by {
        assert xs == xs[..|xs| - 1] + [xs[|xs| - 1]];
      }
      if xs[|xs| - 1] in d then d else d + [xs[|xs| - 1]]
  }

  /** Position of the first occurrence of `x` in `xs`. */
  function FirstIndex(xs: seq<string>, x: string): (k: nat)
    requires x in xs
    ensures k < |xs| && xs[k] == x && x !in xs[..k]
  {
    if xs[0] == x then 0
    else
      var k := FirstIndex(xs[1..], x);
      assert xs[..k + 1] == [xs[0]] + xs[1..][..k];
      k + 1
  }

  lemma FirstIndexInPrefix(xs: seq<string>, n: nat, x: string)
    requires n <= |xs| && x in xs[..n]
    ensures FirstIndex(xs, x) == FirstIndex(xs[..n], x)
  {
    var k := FirstIndex(xs[..n], x);
    assert xs[..n][..k] == xs[..k];
    var k' := FirstIndex(xs, x);
  }

  /** The distinct categories keep first-appearance order. */
  lemma {:induction false} DistinctInFirstSeenOrder(xs: seq<string>, i: nat, j: nat)
    requires i < j < |Distinct(xs)|
    ensures FirstIndex(xs, Distinct(xs)[i]) < FirstIndex(xs, Distinct(xs)[j])
  {
    var n := |xs| - 1;
    var pre := xs[..n];
    var d := Distinct(pre);
    if j < |d| {
      DistinctInFirstSeenOrder(pre, i, j);
      FirstIndexInPrefix(xs, n, d[i]);
      FirstIndexInPrefix(xs, n, d[j]);
    } else {
      // d[j] is the last element, seen for the first time at position n
      assert Distinct(xs)[j] == xs[n] && xs[n] !in pre;
      FirstIndexInPrefix(xs, n, d[i]);
    }
  }

  /** The loops of `getAllCategories`: every category goes into an insertion-ordered set. */
  method CollectCategories(projects: seq<Project>) returns (categories: seq<string>)
    ensures categories == Distinct(AllCategoryMentions(projects))
  {
    categories := [];
    var seen: set<string> := {};
    for p := 0 to |projects|
      invariant categories == Distinct(AllCategoryMentions(projects[..p]))
      invariant seen == set x | x in categories
    {
      var cats := projects[p].category;
      assert AllCategoryMentions(projects[..p]) + cats[..0] == AllCategoryMentions(projects[..p]);
      for c := 0 to |cats|
        invariant categories == Distinct(AllCategoryMentions(projects[..p]) + cats[..c])
        invariant seen == set x | x in categories
      {
        ghost var before := AllCategoryMentions(projects[..p]) + cats[..c];
        assert (before + [cats[c]])[..|before|] == before;
        assert before + [cats[c]] == AllCategoryMentions(projects[..p]) + cats[..c + 1];
        if cats[c] !in seen {
          seen := seen + {cats[c]};
          categories := categories + [cats[c]];
        }
      }
      assert cats[..|cats|] == cats;
      assert projects[..p + 1][..p] == projects[..p];
    }
    assert projects[..|projects|] == projects;
  }

  /** `getAllCategories`: the distinct categories of all projects, in first-seen order. */
  method GetAllCategories(response: Completion<Option<ProjectQueryResult>>) returns (categories: seq<string>)
    ensures categories == Distinct(AllCategoryMentions(GetAllProjects(response)))
    ensures response.Abrupt? ==> categories == []
  {
    categories := CollectCategories(GetAllProjects(response));
  }
}
