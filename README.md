# Goyena site core, modelled in Dafny

Goyena is the marketing site of a residential development. This project models the site's logic and proves properties about it. The model covers six areas:

- **The content layer.** Two CMS clients fetch hero, project, carousel and video entries; the newer one has an unknown-content-type guard. Project entries are parsed into `Project` records with defaults, and the fetchers fall back to empty answers. A React provider aggregates everything into one snapshot, LOADING then READY.
- **The lead-capture endpoint** (`POST /api/contact`):
  - it validates the required fields;
  - it normalises the service-account private key;
  - it checks the credentials;
  - it loads the spreadsheet and takes its first sheet, whatever its title; only a document without any sheet gets a new "Contactos" sheet with seven headers;
  - it appends one row to that sheet, with defaults for the optional fields.
- **The interactive components.** Each is modelled as a class with the component's state cells as fields:
  - the contact form and its submission cycle;
  - the image carousel: index normalisation, auto-advance and dots;
  - the project section: image URL and the two PDF downloads with their loading flags;
  - the construction-progress video, with its play overlay and element listeners.
- **The shared components:**
  - the breadcrumb trail: segments, labels, links, schema.org `BreadcrumbList` and rendering;
  - the tracked link: external detection, safe `rel`/`target` and accessibility attributes;
  - the tracked button: the class string, defaults, accessibility attributes and click gating.

JavaScript semantics are written out where they matter. `JsStrings` covers truthiness, `||` defaults, `trim` with the ECMAScript white-space set, `startsWith`, `includes` and `join`. `Carousel.JsRem` models `%`, which truncates toward zero. Exceptions are modelled as a `Completion` value: `Normal` or `Abrupt` with the thrown value. Each SDK or network call becomes a parameter holding the call's outcome:

- the CMS response;
- `fetch` success;
- the spreadsheet service's answers;
- the request time's formatted string;
- `window.innerWidth`.

Where the prose description of the site and the code disagree, the model follows the code:

- **Carousel.** It shows two static image lists, not CMS carousel entries.
- **Contact form.** It never calls the endpoint: its submission is a one-second delay that cannot fail. The outcome is a parameter (`succeeded`), so the error path is still modelled.
- **Content snapshot.** The provider can only record an aggregation error. Each category's failure is already replaced by its fallback, so the snapshot's `error` is `null` in every run whose getters resolve.
- **Legacy client.** The singular getters of `lib/contentful.js` answer `undefined`, not `null`, when the query has no entry.

## Model

| member | source | states |
|---|---|---|
| `CmsClient.SafeGetEntries` | app/lib/contentful.js:10-24 | a successful query passes through; a failure whose message contains `unknownContentType` becomes an empty item list; any other failure is rethrown unchanged |
| `CmsClient.FirstFields` | app/lib/contentful.js:27-39 | the singular getters answer fields exactly when the query succeeded and has a first entry with fields, and then they are that entry's fields; otherwise `null` |
| `CmsClient.AllFields` | app/lib/contentful.js:57-69 | the carousel getter answers every entry's fields in query order, and `[]` on any failure or missing item list |
| `LegacyCmsClient.FirstFields` | lib/contentful.js:10-22 | `null` exactly after a thrown or item-less query; fields exactly when the first entry has them; `undefined` otherwise |
| `LegacyCmsClient.AllFields` | lib/contentful.js:40-52 | every entry's fields in order, or `[]` when the query throws |
| `LegacyCmsClient.ClientsAgree` | lib/contentful.js:10-66 | the two clients find the same fields and the same carousel list for every response; they differ only in `undefined` versus `null` |
| `ContentTypes.FieldsOf` | app/lib/contentful.js:64 | `items.map(item => item.fields)` keeps length and order |
| `ProjectEntries.ParseImage` | lib/contentful.ts:104-110 | a gallery image's URL is `https:` followed by the file URL or nothing; width and height are the CMS dimensions when present and non-zero, else 800 and 600; the title is the truthy CMS title, else `Project Image`; the description is the truthy CMS description, else empty |
| `ProjectEntries.ParseMainImage` | lib/contentful.ts:95-101 | the main image is the placeholder image exactly when the link or its fields are missing; otherwise it is the linked asset parsed as a gallery image is |
| `ProjectEntries.ParseGallery` | lib/contentful.ts:104-110 | the gallery parses exactly when every asset is resolved, and then it has one parsed image per asset, in order; an unresolved asset throws |
| `ProjectEntries.ParseProjectEntry` | lib/contentful.ts:91-122 | an entry parses exactly when it has no gallery or its gallery parses |
| `ProjectEntries.ParsedProjectDefaults` | lib/contentful.ts:95-121 | each scalar field keeps a truthy CMS value or takes its default; the title is never empty; the main image is the parsed main-image link; the gallery is the parsed gallery, with each asset's parsed image at that asset's position |
| `ProjectEntries.ParseProjectEntries` | lib/contentful.ts:84-88 | no result or no items gives `[]`; otherwise one project per entry, in order, and it succeeds exactly when every entry parses |
| `ProjectEntries.ParseAll` | lib/contentful.ts:87 | `map(parseProjectEntry)` succeeds exactly when every entry parses, and then it yields each entry's project at its position |
| `ProjectEntries.GetAllProjects` | lib/contentful.ts:125-137 | the parsed projects, or `[]` when the query or the parsing throws |
| `ProjectEntries.GetProjectBySlug` | lib/contentful.ts:140-154 | a project exactly when the query yields at least one, and then it is the first entry's parsed project; `null` otherwise |
| `ProjectEntries.Distinct` | lib/contentful.ts:176-182 | what a `Set` collects: no duplicates, and exactly the elements of the input |
| `ProjectEntries.DistinctInFirstSeenOrder` | lib/contentful.ts:182 | `Array.from(set)` lists the categories in order of first appearance |
| `ProjectEntries.CollectCategories` | lib/contentful.ts:178-182 | the nested loops that fill the set produce exactly the distinct categories of all projects, in first-seen order |
| `ProjectEntries.GetAllCategories` | lib/contentful.ts:173-187 | the distinct categories of `getAllProjects`, and `[]` when the query fails |
| `ContentfulProvider.DefaultContextValue` | app/ContentfulProvider.tsx:76-83 | a consumer without a provider sees a loading snapshot without error |
| `ContentfulProvider.InitialSnapshot` | app/ContentfulProvider.tsx:90-97 | the provider starts with an empty loading snapshot, the same as the default context |
| `ContentfulProvider.Recover` | app/ContentfulProvider.tsx:105-120 | a settled category keeps its value; a rejected one takes its fallback |
| `ContentfulProvider.ErrorText` | app/ContentfulProvider.tsx:146 | an `Error`'s message, else `Unknown error` |
| `ContentfulProvider.Settle` | app/ContentfulProvider.tsx:100-149 | the stored snapshot is never loading; without an aggregation failure it holds each recovered category and no error; with one it holds empty content and that error's text |
| `ContentfulProvider.CategoryFailureIsolated` | app/ContentfulProvider.tsx:104-121 | a failing category empties only its own slot |
| `ContentfulProvider.SettleFromClient` | app/ContentfulProvider.tsx:104-136 | with the guarded client's getters, the snapshot has no error and holds a hero image exactly when the hero query has a first entry with fields |
| `ContentfulProvider.Provider.constructor` | app/ContentfulProvider.tsx:90-97 | the state cell starts as the initial loading snapshot, not yet overwritten |
| `ContentfulProvider.Provider.FetchContentfulData` | app/ContentfulProvider.tsx:99-152 | the mount effect replaces the loading cell with the settled snapshot, which is never loading; that it runs once is taken from the empty dependency list and stated as the precondition `updates == 0`, not derived |
| `ContactRoute.UnescapeNewlines` | app/api/contact/route.ts:26 | replacing `\n` escapes never lengthens the key |
| `ContactRoute.UnescapeLeavesNoEscape` | app/api/contact/route.ts:26 | after the global replacement no backslash-`n` pair is left |
| `ContactRoute.UnescapeKeepsPlain` | app/api/contact/route.ts:26 | a key without escapes is left unchanged |
| `ContactRoute.UnescapeIdempotent` | app/api/contact/route.ts:26 | unescaping twice is unescaping once |
| `ContactRoute.Escape` | app/api/contact/route.ts:26 | the inverse of the replacement: each newline written as backslash and `n`; the result holds no newline |
| `ContactRoute.EscapeUnescape` | app/api/contact/route.ts:26 | a key without real newlines is recovered by escaping its unescaped form, so every backslash-`n` pair became a newline and nothing else changed |
| `ContactRoute.UnescapeEscape` | app/api/contact/route.ts:26 | unescaping the escaped form of a string without backslash-`n` pairs gives the string back |
| `ContactRoute.StripQuotes` | app/api/contact/route.ts:29-31 | a key that starts and ends with `"` loses exactly those two characters (one `"` alone becomes empty); any other key is unchanged |
| `ContactRoute.StripQuotesOnce` | app/api/contact/route.ts:29-31 | any key wrapped in one pair of quotes comes back exactly, so only one layer of quotes is removed |
| `ContactRoute.NormalizePrivateKey` | app/api/contact/route.ts:23-32 | a missing or empty key stays as it is; a present one is unescaped and then unquoted |
| `ContactRoute.NormalizedKeyShape` | app/api/contact/route.ts:23-32 | the normalised key, quoted or not, holds no escaped newline and is never longer than the raw key |
| `ContactRoute.UnescapeEmpty` | app/api/contact/route.ts:26 | the unescaped key is empty exactly when the raw key is |
| `ContactRoute.StripQuotesEmpty` | app/api/contact/route.ts:29-31 | unquoting yields the empty string exactly for ``, `"` and `""` |
| `ContactRoute.QuotesOnlyKeyIsEmpty` | app/api/contact/route.ts:23-32 | a raw key normalises to the empty string exactly when it is ``, `"` or `""` |
| `ContactRoute.BuildRow` | app/api/contact/route.ts:67-75 | the row carries the required fields as given and the request time; missing optional fields become `No proporcionado`, `No especificado` and `Sin mensaje`; no cell is empty |
| `ContactRoute.Outcome` | app/api/contact/route.ts:5-88 | the status is 200, 400 or 500, and a row is appended only with the 200 success body |
| `ContactRoute.Post` | app/api/contact/route.ts:5-88 | the handler's response and spreadsheet effect are the specified outcome for every body, environment and service behaviour |
| `ContactRoute.OutcomeContract` | app/api/contact/route.ts:11-87 | statuses are 200, 400 or 500; a 400 happens exactly when a required field is missing, and then nothing is written; a missing email, a missing or falsy key, a key that normalises to the empty string, or a missing spreadsheet id gives the configuration 500 that writes nothing; a body that is not JSON gives the processing 500; so does a failing load, a failing sheet creation when there is no sheet, or a failing append, and then no row is written; when every step succeeds the answer is 200 `{success: true}` and the row `BuildRow` of the body is appended; a row is appended exactly on 200, and it is `BuildRow` of the body; a sheet with the seven headers is created only when there was none |
| `ContactForm.EmptyForm` | app/components/ContactForm.tsx:43-50 | the form has exactly the six fields, all empty |
| `ContactForm.ButtonLabel` | app/components/ContactForm.tsx:249 | `Enviando...` exactly while submitting, `Enviar` otherwise |
| `ContactForm.ContactFormState.ButtonDisabled` | app/components/ContactForm.tsx:240 | the button is disabled exactly while submitting |
| `ContactForm.ContactFormState.Notices` | app/components/ContactForm.tsx:253-272 | the success notice shows exactly when `submitSuccess` is set; the error notice shows exactly when `submitError` is non-empty |
| `ContactForm.ContactFormState.constructor` | app/components/ContactForm.tsx:43-54 | empty form, not submitting, no success, no error |
| `ContactForm.ContactFormState.HandleChange` | app/components/ContactForm.tsx:56-62 | the named field takes the value; every other field and the status cells are unchanged |
| `ContactForm.ContactFormState.BeginSubmit` | app/components/ContactForm.tsx:66-67 | submitting starts and the error is cleared; the form and the success flag are kept |
| `ContactForm.ContactFormState.FinishSubmit` | app/components/ContactForm.tsx:69-87 | success sets the flag and clears the form; failure sets the fixed error message and keeps the form; submitting ends in both cases |
| `ContactForm.ContactFormState.HandleSubmit` | app/components/ContactForm.tsx:64-88 | a whole submission from an enabled form with the required fields filled ends not submitting; on success with no error and an empty form; on failure with the message and the data kept |
| `ContactForm.ClearedFormBlocksResubmit` | app/components/ContactForm.tsx:139-177 | the cleared form does not satisfy the browser's `required` fields |
| `Carousel.JsRem` | app/components/Carousel.tsx:66 | JavaScript's `%` lies strictly between `-n` and `n` and takes the dividend's sign |
| `Carousel.NormalizeIndex` | app/components/Carousel.tsx:66 | `((i % n) + n) % n` is always a valid index and equals the Euclidean remainder |
| `Carousel.ImageSrc` | app/components/Carousel.tsx:61-68 | the placeholder for an empty list or an empty entry, else the entry at the index modulo the length |
| `Carousel.ImageSrcPeriodic` | app/components/Carousel.tsx:66 | shifting the index by the list's length shows the same image |
| `Carousel.NeighbourSlides` | app/components/Carousel.tsx:100-140 | the three visible images are the previous, active and next slides, wrapping at both ends |
| `Carousel.Advance` | app/components/Carousel.tsx:73 | the interval's updater keeps a valid index valid |
| `Carousel.AdvanceTimesIsShift` | app/components/Carousel.tsx:71-77 | `k` ticks move a valid index `k` places, modulo the length |
| `Carousel.FullCycle` | app/components/Carousel.tsx:71-77 | the carousel returns to its slide after exactly as many ticks as there are slides, and not earlier |
| `Carousel.Dots` | app/components/Carousel.tsx:151-154 | one dot per slide; dot `i` goes to slide `i` |
| `Carousel.ImageSetsAlign` | app/components/Carousel.tsx:12-37 | both image sets have ten slides, so switching sets keeps the index valid |
| `Carousel.CarouselState.constructor` | app/components/Carousel.tsx:8 | the carousel starts at slide 0 |
| `Carousel.CarouselState.CheckIfMobile` | app/components/Carousel.tsx:43-58 | the mobile set is used exactly below 768 pixels; the index is kept and stays valid |
| `Carousel.CarouselState.Tick` | app/components/Carousel.tsx:71-77 | one tick advances the index cyclically and keeps it valid |
| `Carousel.CarouselState.GoToSlide` | app/components/Carousel.tsx:80-82 | the state becomes the given index, which is valid exactly when it is within the list |
| `Carousel.CarouselState.ClickDot` | app/components/Carousel.tsx:151-154 | clicking any dot selects its slide and keeps the state valid |
| `Carousel.ImageSetsPresent` | app/components/Carousel.tsx:12-37 | every image of both sets has a source, so the placeholder is never shown |
| `Carousel.VisibleSlides` | app/components/Carousel.tsx:100-140 | for a list of present images the three lookups give the previous, active and next slide, wrapping at both ends |
| `Carousel.CarouselState.Visible` | app/components/Carousel.tsx:100-140 | the centre image is the active slide; the left one the slide before it and the right one the slide after it, wrapping at both ends of the current set |
| `Breadcrumbs.Split` | app/components/shared/Breadcrumbs.tsx:30 | `split('/')` yields at least one piece and no piece contains `/` |
| `Breadcrumbs.NonEmpty` | app/components/shared/Breadcrumbs.tsx:30 | `filter(Boolean)` keeps only non-empty strings |
| `Breadcrumbs.NonEmptyAppend` | app/components/shared/Breadcrumbs.tsx:30 | filtering a concatenation is the concatenation of the filtered parts, in order |
| `Breadcrumbs.NonEmptySingle` | app/components/shared/Breadcrumbs.tsx:30 | a single piece is kept exactly when it is non-empty |
| `Breadcrumbs.NonEmptyKeepsEvery` | app/components/shared/Breadcrumbs.tsx:30 | every non-empty piece of the input is kept |
| `Breadcrumbs.Segments` | app/components/shared/Breadcrumbs.tsx:30 | filtering with `Boolean` leaves only non-empty segments |
| `Breadcrumbs.NonEmptyKeepsPieces` | app/components/shared/Breadcrumbs.tsx:30 | the filter only drops pieces: every kept segment is a piece of the split |
| `Breadcrumbs.SegmentsSlashFree` | app/components/shared/Breadcrumbs.tsx:30 | no segment contains `/` |
| `Breadcrumbs.SplitCanonical` | app/components/shared/Breadcrumbs.tsx:30 | splitting `/` followed by non-empty slash-free segments joined by `/` gives one empty piece and then exactly those segments |
| `Breadcrumbs.SegmentsOfJoin` | app/components/shared/Breadcrumbs.tsx:30 | for slash-free pieces joined by `/`, the segments are exactly the non-empty pieces, in order, so repeated slashes are ignored |
| `Breadcrumbs.SplitTrailingSlash` | app/components/shared/Breadcrumbs.tsx:30 | splitting a path with a trailing slash gives an empty piece, the segments and another empty piece |
| `Breadcrumbs.TrailingSlashSegments` | app/components/shared/Breadcrumbs.tsx:30 | a path with a trailing slash, as the site's `trailingSlash` setting produces, has exactly its segments |
| `Breadcrumbs.CanonicalSegments` | app/components/shared/Breadcrumbs.tsx:30 | splitting and filtering recovers exactly the segments of a canonical path |
| `Breadcrumbs.DashesToSpaces` | app/components/shared/Breadcrumbs.tsx:39 | replacing every `-` keeps the segment's length (the per-character effect is stated by `LabelAt`) |
| `Breadcrumbs.CapitalizeScan` | app/components/shared/Breadcrumbs.tsx:40 | the left-to-right replacement of `\b\w` upper-cases exactly the word characters that follow a non-word character or the start, and keeps every other character |
| `Breadcrumbs.CapitalizeFrom` | app/components/shared/Breadcrumbs.tsx:40 | the replacement keeps the length of the text (the per-character effect is stated by `CapitalizeScan`) |
| `Breadcrumbs.Label` | app/components/shared/Breadcrumbs.tsx:38-40 | a label has its segment's length (the per-character effect is stated by `LabelAt`) |
| `Breadcrumbs.LabelAt` | app/components/shared/Breadcrumbs.tsx:38-40 | a label has its segment's length; each `-` becomes a space; each word-initial character is upper-cased; every other character is kept |
| `Breadcrumbs.Href` | app/components/shared/Breadcrumbs.tsx:36 | every link starts with `/` (how it grows is stated by `HrefExtends`) |
| `Breadcrumbs.SegmentCrumbs` | app/components/shared/Breadcrumbs.tsx:35-43 | one crumb per segment (each crumb's link and label are stated by `SegmentCrumbAt`) |
| `Breadcrumbs.SettledCrumbs` | app/components/shared/Breadcrumbs.tsx:15-27 | with `omitHome` absent (or on the home page) the trail starts with a home crumb linking to `/`, labelled by `homeLabel` or by `Inicio` when the prop is absent |
| `Breadcrumbs.Crumbs` | app/components/shared/Breadcrumbs.tsx:23-47 | the home page gives the single home crumb; otherwise one crumb per segment, after the home crumb unless it is omitted |
| `Breadcrumbs.TrailAt` | app/components/shared/Breadcrumbs.tsx:33-44 | in a trail made of an optional home crumb followed by the segment crumbs, the crumb at each position past the head links to the segments up to its own and carries its segment's label |
| `Breadcrumbs.TrailHrefsGrow` | app/components/shared/Breadcrumbs.tsx:33-44 | along such a trail, whose home crumb links to `/`, every link is strictly shorter than each later one |
| `Breadcrumbs.SegmentCrumbAt` | app/components/shared/Breadcrumbs.tsx:33-44 | past the home crumb, each crumb is its segment's crumb: it links to `/` plus the segments up to its own, joined by `/`, and carries its segment's label |
| `Breadcrumbs.HrefExtends` | app/components/shared/Breadcrumbs.tsx:36 | each crumb's link is the previous link, a slash and its own segment |
| `Breadcrumbs.HrefsIncrease` | app/components/shared/Breadcrumbs.tsx:36 | links grow strictly along the trail, each a prefix of the next |
| `Breadcrumbs.CrumbHrefsDistinct` | app/components/shared/Breadcrumbs.tsx:74 | all links of a trail are distinct, so they are valid list keys |
| `Breadcrumbs.CanonicalPathTrail` | app/components/shared/Breadcrumbs.tsx:33-44 | on a canonical path the last crumb links to the page itself |
| `Breadcrumbs.JsonLdItems` | app/components/shared/Breadcrumbs.tsx:53-60 | one list item per crumb |
| `Breadcrumbs.JsonLdMatchesTrail` | app/components/shared/Breadcrumbs.tsx:53-60 | item `i` has position `i + 1`, the crumb's name, and an id made of the site origin followed by the crumb's link |
| `Breadcrumbs.Render` | app/components/shared/Breadcrumbs.tsx:73-89 | one rendered item per crumb, with its link and label |
| `Breadcrumbs.RenderShape` | app/components/shared/Breadcrumbs.tsx:75-88 | a separator before every item but the first; a link on every item but the last, which is the current page |
| `LinkWithTracking.IsExternal` | app/components/shared/LinkWithTracking.tsx:30 | a link is external exactly when its address starts with `http` |
| `LinkWithTracking.ExternalRel` | app/components/shared/LinkWithTracking.tsx:33-34 | the trimmed external `rel` starts with `noopener noreferrer`; it is exactly that without a caller `rel`, and those words, a space and the caller's `rel` when that ends with a non-space |
| `LinkWithTracking.SafeRel` | app/components/shared/LinkWithTracking.tsx:33-35 | an internal link keeps the caller's `rel`; an external one always gets `noopener noreferrer`, plus the caller's words |
| `LinkWithTracking.SafeTarget` | app/components/shared/LinkWithTracking.tsx:38-40 | `_blank` exactly for an external link without a target; otherwise the caller's target; an external link always has a target |
| `LinkWithTracking.AriaAttributes` | app/components/shared/LinkWithTracking.tsx:43-61 | only `aria-label` and `title`; the label comes from the prop or string children; the title from the prop or, on an external link, the new-window notice |
| `LinkWithTracking.BuildAttributes` | app/components/shared/LinkWithTracking.tsx:44-58 | the effect's step-by-step dictionary equals the specified attributes |
| `LinkWithTracking.Render` | app/components/shared/LinkWithTracking.tsx:69-99 | an anchor exactly for external links, with safe target and `rel`, and the screen-reader hint exactly when it opens a new window; a client-side link otherwise, prefetching exactly when the address has no `#` |
| `LinkWithTracking.ClickCalls` | app/components/shared/LinkWithTracking.tsx:64-67 | a click calls the caller's handler once exactly when one is given |
| `LinkWithTracking.Link.constructor` | app/components/shared/LinkWithTracking.tsx:27 | the first render has no attributes |
| `LinkWithTracking.Link.RunEffect` | app/components/shared/LinkWithTracking.tsx:43-61 | after the effect the state holds the specified attributes |
| `LinkWithTracking.SettledLinkAttributes` | app/components/shared/LinkWithTracking.tsx:43-61 | after the effect an external link always has a title; an internal one without label, title or string children has no attributes |
| `ButtonWithTracking.BaseClasses` | app/components/shared/ButtonWithTracking.tsx:52 | the base classes are non-empty and start with a non-space |
| `ButtonWithTracking.Defaults` | app/components/shared/ButtonWithTracking.tsx:21-35 | each absent prop takes its default: primary, medium, `button`, left, enabled, not full width, no classes; a given prop is kept |
| `ButtonWithTracking.FixedClassesSolid` | app/components/shared/ButtonWithTracking.tsx:39-55 | the base, variant and size classes joined by spaces start and end with a non-space, whatever the variant and size |
| `ButtonWithTracking.BaseClassShape` | app/components/shared/ButtonWithTracking.tsx:51-57 | the class string starts with the base, variant and size classes; it is exactly them without extra classes; it ends in ` w-full` for a full-width button; caller classes that end with a non-space follow after the full-width slot |
| `ButtonWithTracking.AriaAttributes` | app/components/shared/ButtonWithTracking.tsx:60-80 | only `aria-label`, `title` and `aria-disabled`; the label from the prop or string children; the title exactly when given; `aria-disabled="true"` exactly when disabled |
| `ButtonWithTracking.BuildAttributes` | app/components/shared/ButtonWithTracking.tsx:61-77 | the effect's step-by-step dictionary equals the specified attributes |
| `ButtonWithTracking.Render` | app/components/shared/ButtonWithTracking.tsx:88-105 | the button carries the class string of the settled props and their type, which is `button` when no type is given, so it never submits a surrounding form by default; it is disabled as the settled prop says; an icon is drawn exactly when given, on one side only, and on the right exactly when the position is `right` |
| `ButtonWithTracking.DefaultButtonClass` | app/components/shared/ButtonWithTracking.tsx:30-57 | a button without styling props carries exactly the primary, medium fixed classes |
| `ButtonWithTracking.ClickCalls` | app/components/shared/ButtonWithTracking.tsx:83-86 | a click calls the handler exactly when one is given and the button is not disabled |
| `ButtonWithTracking.Button.constructor` | app/components/shared/ButtonWithTracking.tsx:36 | the first render has no attributes |
| `ButtonWithTracking.Button.RunEffect` | app/components/shared/ButtonWithTracking.tsx:60-80 | after the effect the state holds the specified attributes |
| `ButtonWithTracking.DisabledIsConsistent` | app/components/shared/ButtonWithTracking.tsx:75-86 | a disabled button is announced as disabled and never calls the handler; an enabled one is not announced as disabled |
| `ProjectSection.ProjectImageUrl` | app/components/Project.tsx:228-240 | the CMS picture (`https:` and the file URL) exactly when a file is present, else the bundled picture; the result is not the fallback exactly when it starts with `https:` |
| `ProjectSection.PdfDownload` | app/components/Project.tsx:244-250 | a download happens exactly when the file URL is truthy; it fetches `https:` and the URL and saves under the asset's file name or the default |
| `ProjectSection.Downloads.Disabled` | app/components/Project.tsx:389 | a download button is disabled exactly while its own flag is set |
| `ProjectSection.Downloads.constructor` | app/components/Project.tsx:224-225 | both flags start cleared, with no reset scheduled |
| `ProjectSection.Downloads.Press` | app/components/Project.tsx:243-310 | a press of a disabled button, or one without a URL, changes nothing; otherwise the flag is set, a reset is scheduled, and the file is saved exactly when the fetch succeeds; the other button is untouched |
| `ProjectSection.Downloads.ResetFires` | app/components/Project.tsx:270 | the timer clears its own flag only |
| `ProjectSection.DownloadDefaults` | app/components/Project.tsx:250 | an asset without a file name is saved as `plantas-goyena.pdf` or `brochure-goyena.pdf` |
| `ConstructionProgress.ShouldRender` | app/components/ConstructionProgress.tsx:62-64 | the section renders exactly for a present entry whose `isVisible` is not `false` |
| `ConstructionProgress.VideoUrl` | app/components/ConstructionProgress.tsx:79-86 | the CMS video exactly when a file is present, else the bundled clip |
| `ConstructionProgress.VideoSection.ShowsPlayOverlay` | app/components/ConstructionProgress.tsx:126-137 | the overlay shows exactly while the section is on screen and `isPlaying` is false |
| `ConstructionProgress.VideoSection.Mount` | app/components/ConstructionProgress.tsx:7-59 | the first render attaches listeners exactly when the section renders; the video starts paused and the overlay in sync |
| `ConstructionProgress.VideoSection.Rerender` | app/components/ConstructionProgress.tsx:39-59 | as written: a later render keeps listeners only on an element that existed at mount; a newly rendered element has none |
| `ConstructionProgress.VideoSection.RerenderWithListeners` | app/components/ConstructionProgress.tsx:39-59 | corrected: the element on screen always has the listeners, and the overlay stays in sync |
| `ConstructionProgress.VideoSection.HandlePlayVideo` | app/components/ConstructionProgress.tsx:66-76 | a click toggles the element and sets `isPlaying` to match; without an element nothing changes |
| `ConstructionProgress.VideoSection.ElementPauses` | app/components/ConstructionProgress.tsx:42-49 | a pause of the element clears `isPlaying` only when the listeners are attached |
| `ConstructionProgress.VideoSection.ElementPlays` | app/components/ConstructionProgress.tsx:43-48 | a play of the element sets `isPlaying` only when the listeners are attached |
| `ConstructionProgress.LateVideoPauseIsMissed` | app/components/ConstructionProgress.tsx:39-59 | as written, a video that arrives after mount and later pauses by itself leaves the overlay hidden |
| `ConstructionProgress.LateVideoPauseIsShown` | app/components/ConstructionProgress.tsx:39-59 | with the listener effect re-run, the same sequence shows the overlay |

## Left out

- **Network, SDK and environment access.** The CMS SDK, `fetch`, the spreadsheet library, the JWT signer, `process.env`, `window` and the clock are not modelled as calls. Their outcomes are parameters.
- **Console logging.** All `console.*` calls have no effect on state.
- **Email format and the `es-AR` date format.** The row's `fecha` is a parameter; the endpoint itself does no format validation.
- **JSON body.** A body that is not valid JSON is the `None` body and gives the generic 500. Non-string JSON values are not modelled.
- **Downloads after the fetch.** The blob, the temporary anchor, the 100 ms `revokeObjectURL` timer and the download itself are collapsed into `fetchOk` and the saved request.
- **Asynchrony and timing.** Promise interleaving, the 5 s carousel interval, the 800 ms reset timers and the 1 s form delay are modelled as explicit steps (`Tick`, `ResetFires`, `FinishSubmit`).
- **Rendering not modelled:**
  - animations (motion variants, CountUp);
  - styling beyond the button's class string;
  - the carousel's `isMobile` layout in the construction section;
  - the first-frame `currentTime` effect.
- **Not part of this model:** the page layout and the other sections (hero, navbar, location, footer, menus), the CMS setup scripts, the sitemap generator, the hooks, fonts and configuration.
- **Icons and rich children.** These are abstract; only string versus element children matters.
- **Unicode case.** `Breadcrumbs.Label` upper-cases ASCII word characters only, as `\w` matches only those. `Breadcrumbs.CapitalizeFrom` does the same.
- **`ProjectEntries.GetProjectBySlug` and the category query.** The server-side filter on the slug or category is not modelled: the response is the already-filtered CMS answer. `getProjectsByCategory` is `GetAllProjects` on such a response.
- **`CmsClient.GetHeroImage`, `GetProjectImage`, `GetCarouselImages` and `GetConstructionVideo`.** These are the generic `FirstFields`/`AllFields` at each content type; they have no separate contracts.
- **`NaN` and non-integer numbers.** Image dimensions and `order` are integers, so `|| 800` and `|| 0` replace only zero and absence.

## Findings

| source | as written | input that shows it | evidently intended | confidence | as-written member | corrected member |
|---|---|---|---|---|---|---|
| app/components/ConstructionProgress.tsx:39-59 | the effect that attaches the `pause`/`play`/`ended` listeners has an empty dependency list, so it runs only at mount | mount while the content is still loading (`constructionVideo` is `null`, so no element exists), then the entry arrives, a click plays the video, and the video pauses on its own: the overlay stays hidden while the video is paused | the listeners follow the element on screen, so `isPlaying` always mirrors the element | not executed | `ConstructionProgress.LateVideoPauseIsMissed` | `ConstructionProgress.LateVideoPauseIsShown` |
