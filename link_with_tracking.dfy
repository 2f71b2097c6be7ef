/** The tracked link: an external link (one whose address starts with `http`)
    renders as a plain anchor that opens in a new window with a safe `rel`; an
    internal one renders as a client-side link that prefetches unless it points
    at a fragment. Both carry accessibility attributes derived from the props. */
module LinkWithTracking {
  import opened Wrappers
  import opened JsStrings

  datatype LinkProps = LinkProps(
    href: string, children: Children, className: Option<string>, ariaLabel: Option<string>,
    target: Option<string>, rel: Option<string>, hasOnClick: bool, title: Option<string>)

  const RelBase: string := "noopener noreferrer"
  const NewWindowTitle: string := "Se abrirá en una nueva ventana"
  const NewWindowHint: string := " (Se abre en una nueva ventana)"

  /** `href.startsWith('http') || href.startsWith('https')`; the second test adds nothing. */
  function IsExternal(href: string): (b: bool)
    ensures b <==> StartsWith(href, "http")
  {
    StartsWith(href, "http") || StartsWith(href, "https")
  }

  /** The base `rel` followed by a space keeps its first nineteen characters when trimmed. */
  lemma TrimKeepsRelBase(rest: string)
    ensures var t := Trim(RelBase + " " + rest); |t| >= |RelBase| && t[..|RelBase|] == RelBase
  {
    var s := RelBase + " " + rest;
    assert s[0] == 'n' && s[|RelBase| - 1] == 'r';
    TrimKeepsSolidPrefix(s, |RelBase|);
    assert s[..|RelBase|] == RelBase;
  }

  /** Without a caller `rel` the separator after the base words is trimmed away. */
  lemma TrimBareRel()
    ensures Trim(RelBase + " ") == RelBase
  {
    var s := RelBase + " ";
    assert s[0] == 'n';
    TrimOfSolidStart(s);
    TrimEndDropsSpaces(RelBase, " ");
    assert RelBase[|RelBase| - 1] == 'r';
    TrimEndOfSolidEnd(RelBase);
  }

  /** A caller `rel` that ends with a non-space leaves nothing to trim. */
  lemma TrimSolidRel(rel: string)
    requires rel != [] && !IsSpace(rel[|rel| - 1])
    ensures Trim(RelBase + " " + rel) == RelBase + " " + rel
  {
    var s := RelBase + " " + rel;
    assert s[0] == 'n';
    assert s[|s| - 1] == rel[|rel| - 1];
    TrimOfSolidStart(s);
    TrimEndOfSolidEnd(s);
  }

  /** The trimmed external `rel` starts with the base words; it is exactly them without a
      caller `rel`, and the base words, a space and the caller's `rel` when that ends solidly. */
  lemma ExternalRel(rel: Option<string>)
    ensures StartsWith(Trim(RelBase + " " + Or(rel, "")), RelBase)
    ensures !Truthy(rel) ==> Trim(RelBase + " " + Or(rel, "")) == RelBase
    ensures Truthy(rel) && !IsSpace(rel.value[|rel.value| - 1]) ==>
      Trim(RelBase + " " + Or(rel, "")) == RelBase + " " + rel.value
  {
    TrimKeepsRelBase(Or(rel, ""));
    if !Truthy(rel) {
      assert RelBase + " " + Or(rel, "") == RelBase + " ";
      TrimBareRel();
    } else if !IsSpace(rel.value[|rel.value| - 1]) {
      TrimSolidRel(rel.value);
    }
  }

  /** The `rel` an external link is given: the base words, then the caller's own `rel`, trimmed.
      An internal link keeps the caller's `rel` as it is. */
  function SafeRel(href: string, rel: Option<string>): (r: Option<string>)
    ensures !IsExternal(href) ==> r == rel
    ensures IsExternal(href) ==> r.Some? && StartsWith(r.value, RelBase)
    ensures IsExternal(href) && !Truthy(rel) ==> r == Some(RelBase)
    ensures IsExternal(href) && Truthy(rel) && !IsSpace(rel.value[|rel.value| - 1]) ==>
      r == Some(RelBase + " " + rel.value)
  {
    if IsExternal(href) then
      ExternalRel(rel);
      Some(Trim(RelBase + " " + Or(rel, "")))
    else rel
  }

  /** The `target`: an external link without one opens in a new window. */
  function SafeTarget(href: string, target: Option<string>): (t: Option<string>)
    ensures IsExternal(href) && !Truthy(target) ==> t == Some("_blank")
    ensures !(IsExternal(href) && !Truthy(target)) ==> t == target
    ensures IsExternal(href) ==> Truthy(t)
  {
    if IsExternal(href) && !Truthy(target) then Some("_blank") else target
  }

  /** The accessibility attributes the effect computes. */
  function AriaAttributes(ariaLabel: Option<string>, children: Children, external: bool, title: Option<string>)
    : (attrs: map<string, string>)
    ensures attrs.Keys <= {"aria-label", "title"}
    ensures "aria-label" in attrs <==> Truthy(ariaLabel) || children.Text?
    ensures Truthy(ariaLabel) ==> attrs["aria-label"] == ariaLabel.value
    ensures !Truthy(ariaLabel) && children.Text? ==> attrs["aria-label"] == children.text
    ensures "title" in attrs <==> external || Truthy(title)
    ensures Truthy(title) ==> attrs["title"] == title.value
    ensures external && !Truthy(title) ==> attrs["title"] == NewWindowTitle
  {
    var withLabel: map<string, string> :=
      if Truthy(ariaLabel) then map["aria-label" := ariaLabel.value]
      else if children.Text? then map["aria-label" := children.text]
      else map[];
    if external && !Truthy(title) then withLabel["title" := NewWindowTitle]
    else if Truthy(title) then withLabel["title" := title.value]
    else withLabel
  }

  /** The effect body: the attribute dictionary filled in place. */
  method BuildAttributes(ariaLabel: Option<string>, children: Children, external: bool, title: Option<string>)
    returns (attributes: map<string, string>)
    ensures attributes == AriaAttributes(ariaLabel, children, external, title)
  {
    attributes := map[];
    if Truthy(ariaLabel) {
      attributes := attributes["aria-label" := ariaLabel.value];
    } else if children.Text? {
      attributes := attributes["aria-label" := children.text];
    }
    if external && !Truthy(title) {
      attributes := attributes["title" := NewWindowTitle];
    } else if Truthy(title) {
      attributes := attributes["title" := title.value];
    }
  }

  /** What is rendered: an anchor for an external link (with the screen-reader hint when it
      opens a new window), a client-side link for an internal one. */
  datatype Rendered =
    | Anchor(href: string, className: string, target: Option<string>, rel: Option<string>,
             attrs: map<string, string>, children: Children, srOnlyHint: bool)
    | ClientLink(href: string, className: string, attrs: map<string, string>, children: Children, prefetch: bool)

  /** The component's output once the effect has stored `attrs`. */
  function Render(p: LinkProps, attrs: map<string, string>): (r: Rendered)
    ensures r.Anchor? <==> IsExternal(p.href)
    ensures r.href == p.href && r.attrs == attrs && r.children == p.children
    ensures r.className == p.className.GetOr("")
    ensures r.Anchor? ==> r.target == SafeTarget(p.href, p.target) && r.rel == SafeRel(p.href, p.rel)
    ensures r.Anchor? ==> (r.srOnlyHint <==> r.target == Some("_blank"))
    ensures r.Anchor? && !Truthy(p.target) ==> r.srOnlyHint
    ensures r.ClientLink? ==> (r.prefetch <==> '#' !in p.href)
  {
    var className := p.className.GetOr("");
    if IsExternal(p.href) then
      var target := SafeTarget(p.href, p.target);
      Anchor(p.href, className, target, SafeRel(p.href, p.rel), attrs, p.children, target == Some("_blank"))
    else
      IncludesChar(p.href, '#');
      ClientLink(p.href, className, attrs, p.children, !Includes(p.href, "#"))
  }

  /** How many times a click calls the caller's `onClick`. */
  function ClickCalls(p: LinkProps): (n: nat)
    ensures n <= 1
    ensures n == 1 <==> p.hasOnClick
  {
    if p.hasOnClick then 1 else 0
  }

  /** The component's attribute state: empty on the first render, then what the effect stored. */
  class Link {
    var ariaAttributes: map<string, string>

    constructor ()
      ensures ariaAttributes == map[]
    {
      ariaAttributes := map[];
    }

    /** The effect, run after a render with these props. */
    method RunEffect(p: LinkProps)
      modifies this
      ensures ariaAttributes == AriaAttributes(p.ariaLabel, p.children, IsExternal(p.href), p.title)
    {
      var attributes := BuildAttributes(p.ariaLabel, p.children, IsExternal(p.href), p.title);
      ariaAttributes := attributes;
    }

    /** The current output. */
    function View(p: LinkProps): (r: Rendered)
      reads this
    {
      Render(p, ariaAttributes)
    }
  }

  /** After the effect an external link always carries a title, and an internal link with
      neither a title nor string children carries no attributes besides a given label. */
  lemma SettledLinkAttributes(p: LinkProps)
    ensures var a := AriaAttributes(p.ariaLabel, p.children, IsExternal(p.href), p.title);
      && (IsExternal(p.href) ==> "title" in a)
      && (!IsExternal(p.href) && !Truthy(p.title) && !Truthy(p.ariaLabel) && p.children.Elements? ==> a == map[])
  {
  }
}
