/** The breadcrumb trail of the site: the pathname is cut into its non-empty
    `/`-separated segments, each segment becomes a crumb whose link is the path
    up to and including it and whose label is the segment made readable, and
    the trail is published as a schema.org BreadcrumbList. */
module Breadcrumbs {
  import opened Wrappers
  import opened JsStrings

  datatype Crumb = Crumb(href: string, name: string)

  /** One `ListItem` of the structured data. */
  datatype ListItem = ListItem(position: nat, id: string, name: string)

  /** One rendered `<li>`: the separator before it (if any), and either a link or
      the current-page marker. */
  datatype RenderedItem = RenderedItem(separator: bool, isLink: bool, href: string, name: string)

  const SiteOrigin: string := "https://www.goyena.com.ar"
  const DefaultHomeLabel: string := "Inicio"

  // ---------------------------------------------------------------- segments

  /** `s.split('/')`: the pieces between slashes, empty ones included. */
  function Split(s: string): (parts: seq<string>)
    ensures |parts| >= 1
    ensures forall k :: 0 <= k < |parts| ==> '/' !in parts[k]
  {
    if |s| == 0 then [""]
    else
      var rest := Split(s[1..]);
      if s[0] == '/' then [""] + rest
      else [[s[0]] + rest[0]] + rest[1..]
  }

  /** `.filter(Boolean)` on strings: keeps the non-empty ones, in order. */
  function NonEmpty(parts: seq<string>): (kept: seq<string>)
    ensures forall k :: 0 <= k < |kept| ==> kept[k] != ""
  {
    if parts == [] then []
    else (if parts[0] == "" then [] else [parts[0]]) + NonEmpty(parts[1..])
  }

  /** Filtering keeps only pieces of the input. */
  lemma {:induction false} NonEmptyKeepsPieces(parts: seq<string>)
    ensures forall k :: 0 <= k < |NonEmpty(parts)| ==> NonEmpty(parts)[k] in parts
  {
    if parts != [] {
      NonEmptyKeepsPieces(parts[1..]);
      var rest := NonEmpty(parts[1..]);
      var head := if parts[0] == "" then [] else [parts[0]];
      forall k | 0 <= k < |NonEmpty(parts)| ensures NonEmpty(parts)[k] in parts {
        if k >= |head| {
          assert NonEmpty(parts)[k] == rest[k - |head|];
          assert rest[k - |head|] in parts[1..];
        }
      }
    }
  }

  /** Filtering a concatenation filters each part, keeping their order. */
  lemma {:induction false} NonEmptyAppend(a: seq<string>, b: seq<string>)
    ensures NonEmpty(a + b) == NonEmpty(a) + NonEmpty(b)
  {
    if a != [] {
      assert (a + b)[1..] == a[1..] + b;
      NonEmptyAppend(a[1..], b);
    } else {
      assert a + b == b;
    }
  }

  /** A single piece is kept exactly when it is non-empty. */
  lemma NonEmptySingle(x: string)
    ensures NonEmpty([x]) == if x == "" then [] else [x]
  {
    assert [x][1..] == [];
  }

  /** Every non-empty piece of the input is kept. */
  lemma {:induction false} NonEmptyKeepsEvery(parts: seq<string>)
    ensures forall k :: 0 <= k < |parts| && parts[k] != "" ==> parts[k] in NonEmpty(parts)
  {
    if parts != [] {
      NonEmptyKeepsEvery(parts[1..]);
      forall k | 0 <= k < |parts| && parts[k] != "" ensures parts[k] in NonEmpty(parts) {
        if k > 0 {
          assert parts[1..][k - 1] == parts[k];
        }
      }
    }
  }

  /** The non-empty `/`-separated segments of a pathname. */
  function Segments(pathname: string): (segs: seq<string>)
    ensures forall k :: 0 <= k < |segs| ==> segs[k] != ""
  {
    NonEmpty(Split(pathname))
  }

  /** No segment contains a slash. */
  lemma SegmentsSlashFree(pathname: string)
    ensures forall k :: 0 <= k < |Segments(pathname)| ==> '/' !in Segments(pathname)[k]
  {
    NonEmptyKeepsPieces(Split(pathname));
  }

  // ------------------------------------------------------------------ labels

  /** JavaScript's `\w`: ASCII letters, digits and `_`. */
  predicate IsWordChar(c: char) {
    ('a' <= c <= 'z') || ('A' <= c <= 'Z') || ('0' <= c <= '9') || c == '_'
  }

  /** `toUpperCase` on a character matched by `\w`. */
  function UpperWordChar(c: char): char {
    if 'a' <= c <= 'z' then (c as int - 32) as char else c
  }

  /** `s.replace(/-/g, ' ')`. */
  function DashesToSpaces(s: string): (r: string)
    ensures |r| == |s|
  {
    seq(|s|, k requires 0 <= k < |s| => if s[k] == '-' then ' ' else s[k])
  }

  /** `s.replace(/\b\w/g, c => c.toUpperCase())`, scanning left to right;
      `afterWord` says whether the character before `s` is a word character. */
  function CapitalizeFrom(s: string, afterWord: bool): (r: string)
    ensures |r| == |s|
  {
    if s == [] then []
    else
      [if IsWordChar(s[0]) && !afterWord then UpperWordChar(s[0]) else s[0]]
      + CapitalizeFrom(s[1..], IsWordChar(s[0]))
  }

  /** The character at position `k` begins a word (`\b\w` matches there). */
  predicate WordStart(s: string, k: int)
    requires 0 <= k < |s|
  {
    IsWordChar(s[k]) && (k == 0 || !IsWordChar(s[k - 1]))
  }

  lemma {:induction false} CapitalizeFromAt(s: string, afterWord: bool, k: int)
    requires 0 <= k < |s|
    ensures CapitalizeFrom(s, afterWord)[k] ==
      if IsWordChar(s[k]) && (if k == 0 then !afterWord else !IsWordChar(s[k - 1]))
      then UpperWordChar(s[k]) else s[k]
  {
    if k > 0 {
      CapitalizeFromAt(s[1..], IsWordChar(s[0]), k - 1);
    }
  }

  /** Every character that begins a word upper-cased, every other one kept. */
  function Capitalize(t: string): (r: string)
    ensures |r| == |t|
  {
    seq(|t|, k requires 0 <= k < |t| => if WordStart(t, k) then UpperWordChar(t[k]) else t[k])
  }

  /** The left-to-right replacement computes exactly the word-start capitalisation. */
  lemma CapitalizeScan(t: string)
    ensures CapitalizeFrom(t, false) == Capitalize(t)
  {
    forall k | 0 <= k < |t| ensures CapitalizeFrom(t, false)[k] == Capitalize(t)[k] {
      CapitalizeFromAt(t, false, k);
    }
  }

  /** The display label of a segment. */
  function Label(segment: string): (name: string)
    ensures |name| == |segment|
  {
    Capitalize(DashesToSpaces(segment))
  }

  /** A label has the segment's length; every `-` became a space, every
      word-initial letter was upper-cased and nothing else changed; and it is what
      the two chained `replace` calls produce. */
  lemma LabelAt(segment: string, k: int)
    requires 0 <= k < |segment|
    ensures Label(segment) == CapitalizeFrom(DashesToSpaces(segment), false)
    ensures |Label(segment)| == |segment|
    ensures Label(segment)[k] ==
      var t := DashesToSpaces(segment);
      if WordStart(t, k) then UpperWordChar(t[k]) else t[k]
    ensures segment[k] == '-' ==> Label(segment)[k] == ' '
  {
    CapitalizeScan(DashesToSpaces(segment));
  }

  // ------------------------------------------------------------------- crumbs

  /** The link of the crumb for segment `i`: `/` and the first `i + 1` segments joined by `/`. */
  function Href(segs: seq<string>, i: nat): (href: string)
    requires i < |segs|
    ensures href != [] && href[0] == '/'
  {
    "/" + Join(segs[..i + 1], "/")
  }

  /** One crumb per segment: the link up to it and its label. */
  function SegmentCrumbs(segs: seq<string>): (crumbs: seq<Crumb>)
    ensures |crumbs| == |segs|
  {
    seq(|segs|, i requires 0 <= i < |segs| => Crumb(Href(segs, i), Label(segs[i])))
  }

  /** The trail for the props as given: `homeLabel` defaults to `Inicio` and `omitHome`
      to `false` when absent. */
  function SettledCrumbs(pathname: string, homeLabel: Option<string>, omitHome: Option<bool>): (crumbs: seq<Crumb>)
    ensures pathname == "/" || omitHome != Some(true) ==>
      crumbs != [] && crumbs[0] == Crumb("/", if homeLabel.Some? then homeLabel.value else DefaultHomeLabel)
    ensures homeLabel.None? && omitHome.None? ==> crumbs[0].name == "Inicio"
  {
    Crumbs(pathname, homeLabel.GetOr(DefaultHomeLabel), omitHome.GetOr(false))
  }

  /** The `breadcrumbs` memo of the component. */
  function Crumbs(pathname: string, homeLabel: string, omitHome: bool): (crumbs: seq<Crumb>)
    ensures pathname == "/" ==> crumbs == [Crumb("/", homeLabel)]
    ensures pathname != "/" ==>
      |crumbs| == |Segments(pathname)| + (if omitHome then 0 else 1)
    ensures pathname != "/" && !omitHome ==> crumbs[0] == Crumb("/", homeLabel)
  {
    if pathname == "/" then [Crumb("/", homeLabel)]
    else (if omitHome then [] else [Crumb("/", homeLabel)]) + SegmentCrumbs(Segments(pathname))
  }

  /** Each segment crumb links to the previous crumb's link, a slash and its own segment,
      so every link is a strict prefix of the next. */
  lemma HrefExtends(segs: seq<string>, i: nat)
    requires i + 1 < |segs|
    ensures Href(segs, i + 1) == Href(segs, i) + "/" + segs[i + 1]
    ensures |Href(segs, i)| < |Href(segs, i + 1)|
    ensures Href(segs, i + 1)[..|Href(segs, i)|] == Href(segs, i)
  {
    assert segs[..i + 2] == segs[..i + 1] + [segs[i + 1]];
    JoinSnoc(segs[..i + 1], segs[i + 1], "/");
  }

  lemma {:induction false} HrefLength(segs: seq<string>, i: nat)
    requires i < |segs|
    requires forall k :: 0 <= k < |segs| ==> segs[k] != ""
    ensures |Href(segs, i)| >= i + 2
  {
    if i > 0 {
      HrefLength(segs, i - 1);
      HrefExtends(segs, i - 1);
    }
  }

  /** Links grow strictly along the trail, so they are pairwise distinct (they are the list keys). */
  lemma {:induction false} HrefsIncrease(segs: seq<string>, i: nat, j: nat)
    requires i < j < |segs|
    ensures |Href(segs, i)| < |Href(segs, j)|
    ensures Href(segs, j)[..|Href(segs, i)|] == Href(segs, i)
    decreases j - i
  {
    HrefExtends(segs, j - 1);
    if i < j - 1 {
      HrefsIncrease(segs, i, j - 1);
    }
  }

  /** Past the `head`, position `k` of a trail holds the crumb of segment `k - |head|`. */
  lemma TrailAt(head: seq<Crumb>, segs: seq<string>, k: nat)
    requires |head| <= k < |head| + |segs|
    ensures (head + SegmentCrumbs(segs))[k] == Crumb(Href(segs, k - |head|), Label(segs[k - |head|]))
  {
    assert (head + SegmentCrumbs(segs))[k] == SegmentCrumbs(segs)[k - |head|];
  }

  /** Past the home crumb, the crumb at position `k` is the one for segment `k - off`: it links
      to the path up to that segment and is labelled with the segment made readable. */
  lemma SegmentCrumbAt(pathname: string, homeLabel: string, omitHome: bool, k: nat)
    requires pathname != "/"
    requires (if omitHome then 0 else 1) <= k < |Crumbs(pathname, homeLabel, omitHome)|
    ensures Crumbs(pathname, homeLabel, omitHome)[k]
      == SegmentCrumbs(Segments(pathname))[k - (if omitHome then 0 else 1)]
    ensures Crumbs(pathname, homeLabel, omitHome)[k].href
      == Href(Segments(pathname), k - (if omitHome then 0 else 1))
    ensures Crumbs(pathname, homeLabel, omitHome)[k].name
      == Label(Segments(pathname)[k - (if omitHome then 0 else 1)])
  {
    var segs := Segments(pathname);
    var i := k - (if omitHome then 0 else 1);
    var trail := SegmentCrumbs(segs);
    assert Crumbs(pathname, homeLabel, omitHome)[k] == trail[i];
    assert trail[i] == Crumb(Href(segs, i), Label(segs[i]));
  }

  /** Along a trail (an optional home crumb linking to `/`, then the segment crumbs) the
      links get strictly longer. */
  lemma TrailHrefsGrow(head: seq<Crumb>, segs: seq<string>, i: nat, j: nat)
    requires |head| <= 1 && (head != [] ==> head[0].href == "/")
    requires forall k :: 0 <= k < |segs| ==> segs[k] != ""
    requires i < j < |head| + |segs|
    ensures |(head + SegmentCrumbs(segs))[i].href| < |(head + SegmentCrumbs(segs))[j].href|
  {
    var trail := head + SegmentCrumbs(segs);
    var off := |head|;
    assert trail[j] == SegmentCrumbs(segs)[j - off];
    HrefLength(segs, j - off);
    if i >= off {
      assert trail[i] == SegmentCrumbs(segs)[i - off];
      HrefsIncrease(segs, i - off, j - off);
    }
  }

  /** All crumbs of a trail have distinct links, and only the home crumb links to `/`. */
  lemma CrumbHrefsDistinct(pathname: string, homeLabel: string, omitHome: bool, i: nat, j: nat)
    requires i < j < |Crumbs(pathname, homeLabel, omitHome)|
    ensures Crumbs(pathname, homeLabel, omitHome)[i].href != Crumbs(pathname, homeLabel, omitHome)[j].href
  {
    assert pathname != "/";
    var head := if omitHome then [] else [Crumb("/", homeLabel)];
    TrailHrefsGrow(head, Segments(pathname), i, j);
  }

  // ------------------------------------------------- canonical paths round-trip

  /** Splitting a slash-free piece followed by `/` and more gives that piece first. */
  lemma {:induction false} SplitAfterPiece(a: string, b: string)
    requires '/' !in a
    ensures Split(a + "/" + b) == [a] + Split(b)
    decreases |a|
  {
    if a == [] {
      assert ("" + "/" + b)[1..] == b;
    } else {
      assert (a + "/" + b)[1..] == a[1..] + "/" + b;
      SplitAfterPiece(a[1..], b);
      assert [a[0]] + a[1..] == a;
    }
  }

  lemma {:induction false} SplitOfPiece(a: string)
    requires '/' !in a
    ensures Split(a) == [a]
    decreases |a|
  {
    if a != [] {
      SplitOfPiece(a[1..]);
      assert [a[0]] + a[1..] == a;
    }
  }

  /** `split` undoes `join` for slash-free pieces. */
  lemma {:induction false} SplitJoin(parts: seq<string>)
    requires parts != []
    requires forall k :: 0 <= k < |parts| ==> '/' !in parts[k]
    ensures Split(Join(parts, "/")) == parts
  {
    if |parts| == 1 {
      SplitOfPiece(parts[0]);
    } else {
      SplitAfterPiece(parts[0], Join(parts[1..], "/"));
      SplitJoin(parts[1..]);
    }
  }

  lemma {:induction false} NonEmptyKeepsSolid(parts: seq<string>)
    requires forall k :: 0 <= k < |parts| ==> parts[k] != ""
    ensures NonEmpty(parts) == parts
  {
    if parts != [] {
      NonEmptyKeepsSolid(parts[1..]);
    }
  }

  /** A leading slash puts one empty piece before the joined pieces. */
  lemma SplitCanonical(segs: seq<string>)
    requires segs != []
    requires forall k :: 0 <= k < |segs| ==> '/' !in segs[k]
    ensures Split("/" + Join(segs, "/")) == [""] + segs
  {
    var j := Join(segs, "/");
    SplitAfterPiece("", j);
    assert "" + "/" + j == "/" + j;
    SplitJoin(segs);
  }

  /** On a canonical path (a slash, then non-empty segments separated by single
      slashes) the segments are recovered exactly. */
  lemma CanonicalSegments(segs: seq<string>)
    requires segs != []
    requires forall k :: 0 <= k < |segs| ==> segs[k] != "" && '/' !in segs[k]
    ensures Segments("/" + Join(segs, "/")) == segs
  {
    var parts := [""] + segs;
    SplitCanonical(segs);
    assert parts[0] == "" && parts[1..] == segs;
    assert NonEmpty(parts) == NonEmpty(segs);
    NonEmptyKeepsSolid(segs);
  }

  /** Any pathname is slash-free pieces joined by `/`; its segments are exactly the
      non-empty pieces, in order, whatever the empty pieces (leading, trailing or
      doubled slashes) between them. */
  lemma SegmentsOfJoin(pieces: seq<string>)
    requires pieces != []
    requires forall k :: 0 <= k < |pieces| ==> '/' !in pieces[k]
    ensures Segments(Join(pieces, "/")) == NonEmpty(pieces)
  {
    SplitJoin(pieces);
  }

  /** A trailing slash is the join of one more, empty, piece. */
  lemma JoinTrailingEmpty(segs: seq<string>)
    requires segs != []
    ensures "/" + Join(segs, "/") + "/" == "/" + Join(segs + [""], "/")
  {
    var j := Join(segs, "/");
    JoinSnoc(segs, "", "/");
    assert j + "/" + "" == j + "/";
  }

  /** Appending an empty piece keeps the pieces slash-free. */
  lemma SlashFreeSnocEmpty(segs: seq<string>)
    requires forall k :: 0 <= k < |segs| ==> '/' !in segs[k]
    ensures forall k :: 0 <= k < |segs + [""]| ==> '/' !in (segs + [""])[k]
  {
    forall k | 0 <= k < |segs + [""]| ensures '/' !in (segs + [""])[k] {
      if k < |segs| { assert (segs + [""])[k] == segs[k]; }
    }
  }

  /** A trailing slash adds one empty piece at the end of the split. */
  lemma SplitTrailingSlash(segs: seq<string>)
    requires segs != []
    requires forall k :: 0 <= k < |segs| ==> '/' !in segs[k]
    ensures Split("/" + Join(segs, "/") + "/") == [""] + segs + [""]
  {
    JoinTrailingEmpty(segs);
    SlashFreeSnocEmpty(segs);
    SplitCanonical(segs + [""]);
  }

  /** Empty pieces on both sides of non-empty ones are filtered away. */
  lemma NonEmptyFramed(segs: seq<string>)
    requires forall k :: 0 <= k < |segs| ==> segs[k] != ""
    ensures NonEmpty([""] + segs + [""]) == segs
  {
    calc {
      NonEmpty([""] + segs + [""]);
    == { NonEmptyAppend([""] + segs, [""]); }
      NonEmpty([""] + segs) + NonEmpty([""]);
    == { NonEmptySingle(""); }
      NonEmpty([""] + segs);
    == { NonEmptyAppend([""], segs); NonEmptySingle(""); }
      NonEmpty(segs);
    == { NonEmptyKeepsSolid(segs); }
      segs;
    }
  }

  /** A path with a trailing slash, as the site's own links are written, has the same
      segments as without it. */
  lemma TrailingSlashSegments(segs: seq<string>)
    requires segs != []
    requires forall k :: 0 <= k < |segs| ==> segs[k] != "" && '/' !in segs[k]
    ensures Segments("/" + Join(segs, "/") + "/") == segs
  {
    SplitTrailingSlash(segs);
    NonEmptyFramed(segs);
  }

  /** On a canonical path the last crumb links to the page itself. */
  lemma CanonicalPathTrail(segs: seq<string>, homeLabel: string, omitHome: bool)
    requires segs != []
    requires forall k :: 0 <= k < |segs| ==> segs[k] != "" && '/' !in segs[k]
    ensures var crumbs := Crumbs("/" + Join(segs, "/"), homeLabel, omitHome);
      crumbs != [] && crumbs[|crumbs| - 1].href == "/" + Join(segs, "/")
  {
    var p := "/" + Join(segs, "/");
    var last := |segs| - 1;
    assert Href(segs, last) == p by {
      assert segs[..last + 1] == segs;
    }
    HrefLength(segs, last);
    CanonicalSegments(segs);
    var crumbs := Crumbs(p, homeLabel, omitHome);
    SegmentCrumbAt(p, homeLabel, omitHome, |crumbs| - 1);
  }

  // ----------------------------------------------------------- structured data

  /** The `itemListElement` of the BreadcrumbList. */
  function JsonLdItems(crumbs: seq<Crumb>): (items: seq<ListItem>)
    ensures |items| == |crumbs|
  {
    seq(|crumbs|, i requires 0 <= i < |crumbs| =>
      ListItem(i + 1, SiteOrigin + crumbs[i].href, crumbs[i].name))
  }

  /** The structured data lists the crumbs in order, numbered 1..n, with absolute ids. */
  lemma JsonLdMatchesTrail(crumbs: seq<Crumb>, i: nat)
    requires i < |crumbs|
    ensures |JsonLdItems(crumbs)| == |crumbs|
    ensures JsonLdItems(crumbs)[i].position == i + 1
    ensures JsonLdItems(crumbs)[i].name == crumbs[i].name
    ensures StartsWith(JsonLdItems(crumbs)[i].id, SiteOrigin)
    ensures JsonLdItems(crumbs)[i].id[|SiteOrigin|..] == crumbs[i].href
  {
  }

  // ---------------------------------------------------------------- rendering

  /** The rendered list: a separator before every crumb but the first, a link on every
      crumb but the last, which is the current page. */
  function Render(crumbs: seq<Crumb>): (items: seq<RenderedItem>)
    ensures |items| == |crumbs|
    ensures forall i :: 0 <= i < |crumbs| ==> items[i].href == crumbs[i].href && items[i].name == crumbs[i].name
  {
    seq(|crumbs|, i requires 0 <= i < |crumbs| =>
      RenderedItem(i > 0, i != |crumbs| - 1, crumbs[i].href, crumbs[i].name))
  }

  /** Exactly one rendered item is not a link, the last one; separators sit between items. */
  lemma RenderShape(crumbs: seq<Crumb>)
    requires crumbs != []
    ensures !Render(crumbs)[|crumbs| - 1].isLink
    ensures forall i :: 0 <= i < |crumbs| - 1 ==> Render(crumbs)[i].isLink
    ensures !Render(crumbs)[0].separator
    ensures forall i :: 0 < i < |crumbs| ==> Render(crumbs)[i].separator
  {
  }

}
