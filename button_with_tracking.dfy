/** The tracked button: a class string composed from a base, a variant, a size,
    the full-width flag and the caller's classes; accessibility attributes
    derived from the props; a click that reaches the caller only when the
    button is enabled; and an optional icon on one side of the label. */
module ButtonWithTracking {
  import opened Wrappers
  import opened JsStrings

  datatype Variant = Primary | Secondary | TextVariant
  datatype Size = Small | Medium | Large
  datatype ButtonType = ButtonT | Submit | Reset
  datatype IconPosition = Left | Right

  /** The props; an absent optional prop is `None` and takes its default. */
  datatype ButtonProps = ButtonProps(
    children: Children, hasOnClick: bool, className: Option<string>, buttonType: Option<ButtonType>,
    disabled: Option<bool>, ariaLabel: Option<string>, title: Option<string>, id: Option<string>,
    variant: Option<Variant>, hasIcon: bool, iconPosition: Option<IconPosition>,
    fullWidth: Option<bool>, size: Option<Size>)

  /** The classes every button carries, one utility per token. */
  const BaseTokens: seq<string> := [
    "rounded", "transition-colors", "focus:outline-none", "focus:ring-2",
    "disabled:opacity-50", "disabled:cursor-not-allowed"]

  function BaseClasses(): (s: string)
    ensures s != [] && s[0] == 'r'
  {
    var s := Join(BaseTokens, " ");
    assert s == BaseTokens[0] + " " + Join(BaseTokens[1..], " ");
    s
  }

  /** The utilities of each variant, one per token. */
  function VariantTokens(v: Variant): seq<string> {
    match v
    case Primary => ["bg-primary", "text-white", "hover:bg-primary/90", "focus:ring-primary/20"]
    case Secondary => ["bg-transparent", "border", "border-primary", "text-primary", "hover:bg-primary/10",
                       "focus:ring-primary/20"]
    case TextVariant => ["bg-transparent", "text-primary", "hover:underline", "focus:ring-0"]
  }

  /** The variant's class string: its utilities separated by single spaces. */
  function VariantClass(v: Variant): string {
    Join(VariantTokens(v), " ")
  }

  function SizeClass(s: Size): string {
    match s
    case Small => "text-sm py-1 px-3"
    case Medium => "text-base py-2 px-4"
    case Large => "text-lg py-3 px-6"
  }

  /** The props after the destructuring defaults, which apply only to absent props. */
  datatype Settled = Settled(
    className: string, buttonType: ButtonType, disabled: bool, variant: Variant,
    iconPosition: IconPosition, fullWidth: bool, size: Size)

  function Defaults(p: ButtonProps): (s: Settled)
    ensures p.variant.None? ==> s.variant == Primary
    ensures p.size.None? ==> s.size == Medium
    ensures p.buttonType.None? ==> s.buttonType == ButtonT
    ensures p.iconPosition.None? ==> s.iconPosition == Left
    ensures p.disabled.None? ==> !s.disabled
    ensures p.fullWidth.None? ==> !s.fullWidth
    ensures p.className.None? ==> s.className == ""
    ensures p.variant.Some? ==> s.variant == p.variant.value
    ensures p.size.Some? ==> s.size == p.size.value
    ensures p.className.Some? ==> s.className == p.className.value
    ensures p.iconPosition.Some? ==> s.iconPosition == p.iconPosition.value
    ensures p.disabled.Some? ==> s.disabled == p.disabled.value
    ensures p.fullWidth.Some? ==> s.fullWidth == p.fullWidth.value
    ensures p.buttonType.Some? ==> s.buttonType == p.buttonType.value
  {
    Settled(p.className.GetOr(""), p.buttonType.GetOr(ButtonT), p.disabled.GetOr(false),
            p.variant.GetOr(Primary), p.iconPosition.GetOr(Left), p.fullWidth.GetOr(false), p.size.GetOr(Medium))
  }

  /** The classes every button has: base, variant and size, separated by single spaces. */
  function FixedClasses(variant: Variant, size: Size): string {
    BaseClasses() + " " + VariantClass(variant) + " " + SizeClass(size)
  }

  /** `[base, variant, size, fullWidth ? 'w-full' : '', className].join(' ').trim()`. */
  function BaseClass(variant: Variant, size: Size, fullWidth: bool, className: string): string {
    Trim(Join([BaseClasses(), VariantClass(variant), SizeClass(size), if fullWidth then "w-full" else "", className], " "))
  }

  /** The class string of a button with these settled props. */
  function SettledClass(s: Settled): string {
    BaseClass(s.variant, s.size, s.fullWidth, s.className)
  }

  /** The class string starts with the fixed classes; without caller classes it is the fixed
      classes, followed by `w-full` on a full-width button; caller classes that end with a
      non-space follow the fixed classes and the full-width slot, each after one space. */
  lemma BaseClassShape(variant: Variant, size: Size, fullWidth: bool, className: string)
    ensures var r := BaseClass(variant, size, fullWidth, className);
      && StartsWith(r, FixedClasses(variant, size))
      && (!fullWidth && className == "" ==> r == FixedClasses(variant, size))
      && (fullWidth && className == "" ==> r == FixedClasses(variant, size) + " w-full")
      && (className != "" && !IsSpace(className[|className| - 1]) ==>
            r == FixedClasses(variant, size) + " " + (if fullWidth then "w-full" else "") + " " + className)
  {
    JoinFive(BaseClasses(), VariantClass(variant), SizeClass(size), if fullWidth then "w-full" else "", className);
    FixedClassesSolid(variant, size);
    BaseClassCases(FixedClasses(variant, size), fullWidth, className);
  }

  /** The trimmed class string for any fixed part that starts and ends with a non-space. */
  lemma BaseClassCases(fixed: string, fullWidth: bool, className: string)
    requires fixed != [] && !IsSpace(fixed[0]) && !IsSpace(fixed[|fixed| - 1])
    ensures var r := Trim(fixed + " " + (if fullWidth then "w-full" else "") + " " + className);
      && StartsWith(r, fixed)
      && (!fullWidth && className == "" ==> r == fixed)
      && (fullWidth && className == "" ==> r == fixed + " w-full")
      && (className != "" && !IsSpace(className[|className| - 1]) ==>
            r == fixed + " " + (if fullWidth then "w-full" else "") + " " + className)
  {
    var extra := if fullWidth then "w-full" else "";
    TrimKeepsFixed(fixed, extra, className);
    if className == "" {
      if fullWidth { TrimFullWidth(fixed); } else { TrimBareFixed(fixed); }
    } else if !IsSpace(className[|className| - 1]) {
      TrimWithClassName(fixed, extra, className);
    }
  }

  /** Five words joined by single spaces. */
  lemma JoinFive(a: string, b: string, c: string, d: string, e: string)
    ensures Join([a, b, c, d, e], " ") == a + " " + b + " " + c + " " + d + " " + e
  {
    var de := Join([d, e], " ");
    assert de == d + " " + e by { assert [d, e][1..] == [e]; assert Join([e], " ") == e; }
    var cde := Join([c, d, e], " ");
    assert cde == c + " " + de by { assert [c, d, e][1..] == [d, e]; }
    var bcde := Join([b, c, d, e], " ");
    assert bcde == b + " " + cde by { assert [b, c, d, e][1..] == [c, d, e]; }
    assert Join([a, b, c, d, e], " ") == a + " " + bcde by { assert [a, b, c, d, e][1..] == [b, c, d, e]; }
    assert cde == c + " " + d + " " + e;
    assert bcde == b + " " + c + " " + d + " " + e;
  }

  /** The size classes end with a non-space. */
  lemma SizeClassSolidEnd(size: Size)
    ensures var sc := SizeClass(size); sc != [] && !IsSpace(sc[|sc| - 1])
  {
    match size
    case Small => assert SizeClass(size)[16] == '3';
    case Medium => assert SizeClass(size)[18] == '4';
    case Large => assert SizeClass(size)[16] == '6';
  }

  /** Three words joined by single spaces start and end like the outer two. */
  lemma SolidTriple(a: string, b: string, c: string)
    requires a != [] && !IsSpace(a[0]) && c != [] && !IsSpace(c[|c| - 1])
    ensures var t := a + " " + b + " " + c; t != [] && !IsSpace(t[0]) && !IsSpace(t[|t| - 1])
  {
    var t := a + " " + b + " " + c;
    assert t[0] == a[0];
    assert t[|t| - 1] == c[|c| - 1];
  }

  /** The fixed classes start and end with a non-space. */
  lemma FixedClassesSolid(variant: Variant, size: Size)
    ensures var fixed := FixedClasses(variant, size);
      fixed != [] && !IsSpace(fixed[0]) && !IsSpace(fixed[|fixed| - 1])
  {
    var base, vc, sc := BaseClasses(), VariantClass(variant), SizeClass(size);
    SizeClassSolidEnd(size);
    SolidTriple(base, vc, sc);
    assert FixedClasses(variant, size) == base + " " + vc + " " + sc;
  }

  /** Trimming keeps the fixed classes at the front. */
  lemma TrimKeepsFixed(fixed: string, extra: string, className: string)
    requires fixed != [] && !IsSpace(fixed[0]) && !IsSpace(fixed[|fixed| - 1])
    ensures StartsWith(Trim(fixed + " " + extra + " " + className), fixed)
  {
    var joined := fixed + " " + extra + " " + className;
    assert joined[0] == fixed[0];
    assert joined[|fixed| - 1] == fixed[|fixed| - 1];
    TrimKeepsSolidPrefix(joined, |fixed|);
    assert joined[..|fixed|] == fixed;
  }

  /** Without `w-full` and caller classes the two trailing separators are trimmed away. */
  lemma TrimBareFixed(fixed: string)
    requires fixed != [] && !IsSpace(fixed[0]) && !IsSpace(fixed[|fixed| - 1])
    ensures Trim(fixed + " " + "" + " " + "") == fixed
  {
    var joined := fixed + " " + "" + " " + "";
    assert joined == fixed + "  ";
    assert joined[0] == fixed[0];
    TrimOfSolidStart(joined);
    TrimEndDropsSpaces(fixed, "  ");
    TrimEndOfSolidEnd(fixed);
  }

  /** With `w-full` and no caller classes only the last separator is trimmed away. */
  lemma TrimFullWidth(fixed: string)
    requires fixed != [] && !IsSpace(fixed[0]) && !IsSpace(fixed[|fixed| - 1])
    ensures Trim(fixed + " " + "w-full" + " " + "") == fixed + " w-full"
  {
    var joined := fixed + " " + "w-full" + " " + "";
    var solid := fixed + " w-full";
    assert joined == solid + " ";
    assert joined[0] == fixed[0];
    TrimOfSolidStart(joined);
    TrimEndDropsSpaces(solid, " ");
    assert solid[|solid| - 1] == 'l';
    TrimEndOfSolidEnd(solid);
  }

  /** Caller classes that end with a non-space leave nothing to trim. */
  lemma TrimWithClassName(fixed: string, extra: string, className: string)
    requires fixed != [] && !IsSpace(fixed[0])
    requires className != "" && !IsSpace(className[|className| - 1])
    ensures Trim(fixed + " " + extra + " " + className) == fixed + " " + extra + " " + className
  {
    var joined := fixed + " " + extra + " " + className;
    assert joined[0] == fixed[0];
    assert joined[|joined| - 1] == className[|className| - 1];
    TrimOfSolidStart(joined);
    TrimEndOfSolidEnd(joined);
  }

  /** The attributes the effect computes. */
  function AriaAttributes(ariaLabel: Option<string>, children: Children, disabled: bool, title: Option<string>)
    : (attrs: map<string, string>)
    ensures attrs.Keys <= {"aria-label", "title", "aria-disabled"}
    ensures "aria-label" in attrs <==> Truthy(ariaLabel) || children.Text?
    ensures Truthy(ariaLabel) ==> attrs["aria-label"] == ariaLabel.value
    ensures !Truthy(ariaLabel) && children.Text? ==> attrs["aria-label"] == children.text
    ensures "title" in attrs <==> Truthy(title)
    ensures Truthy(title) ==> attrs["title"] == title.value
    ensures "aria-disabled" in attrs <==> disabled
    ensures disabled ==> attrs["aria-disabled"] == "true"
  {
    var withLabel: map<string, string> :=
      if Truthy(ariaLabel) then map["aria-label" := ariaLabel.value]
      else if children.Text? then map["aria-label" := children.text]
      else map[];
    var withTitle := if Truthy(title) then withLabel["title" := title.value] else withLabel;
    if disabled then withTitle["aria-disabled" := "true"] else withTitle
  }

  /** The effect body: the attribute dictionary filled in place. */
  method BuildAttributes(ariaLabel: Option<string>, children: Children, disabled: bool, title: Option<string>)
    returns (attributes: map<string, string>)
    ensures attributes == AriaAttributes(ariaLabel, children, disabled, title)
  {
    attributes := map[];
    if Truthy(ariaLabel) {
      attributes := attributes["aria-label" := ariaLabel.value];
    } else if children.Text? {
      attributes := attributes["aria-label" := children.text];
    }
    if Truthy(title) {
      attributes := attributes["title" := title.value];
    }
    if disabled {
      attributes := attributes["aria-disabled" := "true"];
    }
  }

  /** The rendered button; the icon slots say on which side an icon is shown. */
  datatype Rendered = Rendered(
    buttonType: ButtonType, className: string, disabled: bool, id: Option<string>,
    attrs: map<string, string>, iconLeft: bool, children: Children, iconRight: bool)

  /** The rendered button: the class string from the settled props, and an icon on
      exactly the side the settled position names. */
  function Render(p: ButtonProps, attrs: map<string, string>): (r: Rendered)
    ensures r.disabled == Defaults(p).disabled
    ensures r.className == SettledClass(Defaults(p))
    ensures r.buttonType == Defaults(p).buttonType
    ensures p.buttonType.None? ==> r.buttonType == ButtonT
    ensures r.attrs == attrs && r.children == p.children && r.id == p.id
    ensures !(r.iconLeft && r.iconRight)
    ensures r.iconLeft || r.iconRight <==> p.hasIcon
    ensures r.iconRight <==> p.hasIcon && p.iconPosition.Some? && p.iconPosition.value == Right
  {
    var s := Defaults(p);
    Rendered(s.buttonType, SettledClass(s), s.disabled, p.id, attrs,
             p.hasIcon && s.iconPosition == Left, p.children, p.hasIcon && s.iconPosition == Right)
  }

  /** A button given none of the styling props is a primary, medium-sized button with
      exactly the fixed classes. */
  lemma DefaultButtonClass(p: ButtonProps, attrs: map<string, string>)
    requires p.variant.None? && p.size.None? && p.fullWidth.None? && p.className.None?
    ensures Render(p, attrs).className == FixedClasses(Primary, Medium)
  {
    BaseClassShape(Primary, Medium, false, "");
  }

  /** How many times a click calls the caller's `onClick`. */
  function ClickCalls(p: ButtonProps): (n: nat)
    ensures n <= 1
    ensures n == 1 <==> p.hasOnClick && p.disabled != Some(true)
  {
    if p.hasOnClick && !Defaults(p).disabled then 1 else 0
  }

  /** The component's attribute state: empty on the first render, then what the effect stored. */
  class Button {
    var ariaAttributes: map<string, string>

    constructor ()
      ensures ariaAttributes == map[]
    {
      ariaAttributes := map[];
    }

    method RunEffect(p: ButtonProps)
      modifies this
      ensures ariaAttributes == AriaAttributes(p.ariaLabel, p.children, Defaults(p).disabled, p.title)
    {
      var attributes := BuildAttributes(p.ariaLabel, p.children, p.disabled.GetOr(false), p.title);
      ariaAttributes := attributes;
    }

    function View(p: ButtonProps): (r: Rendered)
      reads this
    {
      Render(p, ariaAttributes)
    }
  }

  /** A disabled button is announced as disabled and never reaches the caller's handler;
      an enabled one is never announced as disabled. */
  lemma DisabledIsConsistent(p: ButtonProps)
    ensures var a := AriaAttributes(p.ariaLabel, p.children, Defaults(p).disabled, p.title);
      && (Defaults(p).disabled ==> ClickCalls(p) == 0 && a["aria-disabled"] == "true")
      && (!Defaults(p).disabled ==> "aria-disabled" !in a && (ClickCalls(p) == 1 <==> p.hasOnClick))
  {
  }
}
