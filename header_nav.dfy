/** The header navigation: a declarative configuration tree interpreted into
    nested menu entries.

    The configuration's enumerations (item type, layout, width, section type,
    gradient) are strings here, because the class helpers take any string and
    fall back on a default for values outside the declared unions. The output
    is an abstract tree: links with label, href and optional description, plus
    layout and class tags; markup and styling are not part of it. */
module HeaderNav {
  import opened Fallback

  // ---------------------------------------------------------------------------
  // Configuration

  datatype ItemStyle = ItemStyle(transition: Option<bool>)

  datatype FeaturedSection = FeaturedSection(title: string, description: string, href: string, gradient: Option<string>)

  /** A link inside a section; `icon` names the icon component, if any. */
  datatype SectionItem = SectionItem(text: string, href: string, description: Option<string>, icon: Option<string>)

  datatype Section = Section(
    sectionType: string,
    title: Option<string>,
    description: Option<string>,
    href: Option<string>,
    items: Option<seq<SectionItem>>,
    featured: Option<FeaturedSection>)

  datatype DropdownContent = DropdownContent(
    layout: string,
    width: string,
    columns: Option<int>,
    sections: Option<seq<Section>>)

  datatype NavItem = NavItem(
    itemType: string,
    text: string,
    href: Option<string>,
    content: Option<DropdownContent>,
    style: Option<ItemStyle>)

  datatype NavConfig = NavConfig(items: seq<NavItem>, viewport: Option<bool>)

  // ---------------------------------------------------------------------------
  // Rendered tree

  /** One entry of a dropdown panel. */
  datatype Entry =
    | FeaturedCard(title: string, description: string, href: string, gradientClass: string)
    | DescribedLink(text: string, href: string, summary: Option<string>)
    | IconLink(text: string, href: string, icon: Option<string>)
    | PlainLink(text: string, href: string)
  {
    function Label(): string {
      if FeaturedCard? then title else text
    }
  }

  /** Which container a dropdown's sections are laid out in. */
  datatype Container = FeaturedPanel | GridPanel | ListPanel

  /** A dropdown panel: its container, the class names given to it, and the
      entries of each section in order. */
  datatype Panel = Panel(container: Container, classes: seq<string>, sections: seq<seq<Entry>>)

  /** A top-level entry: a plain link or a trigger with its dropdown panel. */
  datatype TopEntry =
    | TopLink(text: string, href: string, transitionNone: bool)
    | TopDropdown(text: string, panel: Panel)

  datatype NavView = NavView(viewport: Option<bool>, entries: seq<TopEntry>)

  /** Rendering a non-link item whose `content` is missing dereferences `undefined`. */
  datatype RenderError = ContentMissing(text: string)

  // ---------------------------------------------------------------------------
  // Class helpers

  const KnownWidths: set<string> := {"sm", "md", "lg", "xl"}
  const DefaultWidthClass := "w-[300px]"
  const MutedGradient := "from-muted/50 to-muted bg-gradient-to-b"

  /** `getWidthClass`: a class per known width, `w-[300px]` for any other value. */
  function WidthClass(width: string): (r: string)
    ensures r == DefaultWidthClass <==> width !in KnownWidths
  {
    if width == "sm" then "w-[200px]"
    else if width == "md" then "w-[300px] md:w-[400px]"
    else if width == "lg" then "w-[400px] md:w-[500px] lg:w-[600px]"
    else if width == "xl" then "w-[400px] md:w-[500px] lg:w-[700px]"
    else DefaultWidthClass
  }

  /** The decimal digit of a column count from 1 to 4. */
  function ColumnDigit(n: int): char
    requires 1 <= n <= 4
  {
    (48 + n) as char
  }

  /** `getGridClass`: empty unless the layout is a grid; for a grid,
      `grid-cols-n` for n from 1 to 4 and `grid-cols-2` otherwise. */
  function GridClass(columns: int, layout: string): (r: string)
    ensures layout != "grid" ==> r == ""
    ensures layout == "grid" && 1 <= columns <= 4 ==> r == "grid-cols-" + [ColumnDigit(columns)]
    ensures layout == "grid" && !(1 <= columns <= 4) ==> r == "grid-cols-2"
  {
    if layout == "grid" then
      if columns == 1 then "grid-cols-1"
      else if columns == 2 then "grid-cols-2"
      else if columns == 3 then "grid-cols-3"
      else if columns == 4 then "grid-cols-4"
      else "grid-cols-2"
    else ""
  }

  /** `getGradientClass`: primary and secondary have their own class, every
      other value (muted included) the muted one. */
  function GradientClass(gradient: string): (r: string)
    ensures r == MutedGradient <==> gradient !in {"primary", "secondary"}
  {
    if gradient == "muted" then MutedGradient
    else if gradient == "primary" then "from-primary/50 to-primary bg-gradient-to-b"
    else if gradient == "secondary" then "from-secondary/50 to-secondary bg-gradient-to-b"
    else MutedGradient
  }

  /** The grid class a dropdown computes: only a grid with a truthy (non-zero)
      column count consults `getGridClass`. */
  function DropdownGridClass(c: DropdownContent): (r: string)
    ensures r != "" <==> c.layout == "grid" && c.columns.Some? && c.columns.value != 0
  {
    if c.layout == "grid" && c.columns.Some? && c.columns.value != 0
    then GridClass(c.columns.value, c.layout)
    else ""
  }

  // ---------------------------------------------------------------------------
  // Sections

  /** The three kinds of section that render one link per item. */
  datatype ListKind = Described | Iconed | Plain

  /** One item of a list section: a link of the section's kind with the item's
      label and href. */
  function RenderListItem(kind: ListKind, it: SectionItem): (r: Entry)
    ensures !r.FeaturedCard? && r.Label() == it.text && r.href == it.href
    ensures r.DescribedLink? <==> kind == Described
    ensures r.IconLink? <==> kind == Iconed
    ensures r.DescribedLink? ==> r.summary == it.description
    ensures r.IconLink? ==> r.icon == it.icon
  {
    match kind
    case Described => DescribedLink(it.text, it.href, it.description)
    case Iconed => IconLink(it.text, it.href, it.icon)
    case Plain => PlainLink(it.text, it.href)
  }

  /** `section.items.map(...)`: one link per item, in order, keeping label and href. */
  function RenderList(kind: ListKind, items: seq<SectionItem>): (r: seq<Entry>)
    ensures |r| == |items|
    ensures forall i :: 0 <= i < |items| ==> r[i] == RenderListItem(kind, items[i])
    ensures forall i :: 0 <= i < |items| ==> !r[i].FeaturedCard? && r[i].text == items[i].text && r[i].href == items[i].href
  {
    if items == [] then [] else [RenderListItem(kind, items[0])] + RenderList(kind, items[1..])
  }

  /** `HeaderNavSectionRenderer`: a featured card, a list of links, or nothing. */
  function RenderSection(s: Section): (r: seq<Entry>)
    ensures forall i :: 0 <= i < |r| ==> (r[i].FeaturedCard? <==> s.sectionType == "featured")
    ensures s.sectionType == "featured" ==> |r| <= 1
    ensures s.sectionType in {"description-list", "icon-list", "list"} ==> |r| == |OrList(s.items, [])|
  {
    if s.sectionType == "featured" && s.featured.Some? then
      var f := s.featured.value;
      [FeaturedCard(f.title, f.description, f.href, GradientClass(OrText(f.gradient, "muted")))]
    else if s.sectionType == "description-list" then RenderList(Described, OrList(s.items, []))
    else if s.sectionType == "icon-list" then RenderList(Iconed, OrList(s.items, []))
    else if s.sectionType == "list" then RenderList(Plain, OrList(s.items, []))
    else []
  }

  /** `sections.map(...)`: one rendered section per configured section, in order. */
  function RenderSections(ss: seq<Section>): (r: seq<seq<Entry>>)
    ensures |r| == |ss|
    ensures forall i :: 0 <= i < |ss| ==> r[i] == RenderSection(ss[i])
  {
    if ss == [] then [] else [RenderSection(ss[0])] + RenderSections(ss[1..])
  }

  // ---------------------------------------------------------------------------
  // Dropdowns and the top level

  /** `HeaderNavDropdownContent`: featured and grid layouts get their own
      container; every other layout is laid out as a list. */
  function RenderDropdown(c: DropdownContent): (p: Panel)
    ensures p.container == FeaturedPanel <==> c.layout == "featured"
    ensures p.container == GridPanel <==> c.layout == "grid"
    ensures p.container == ListPanel <==> c.layout != "featured" && c.layout != "grid"
    ensures |p.classes| >= 2 && p.classes[1] == WidthClass(c.width)
    ensures p.sections == RenderSections(OrList(c.sections, []))
  {
    var widthClass := WidthClass(c.width);
    var sections := RenderSections(OrList(c.sections, []));
    if c.layout == "featured" then
      Panel(FeaturedPanel, ["grid gap-3 p-6", widthClass, "lg:grid-cols-[.75fr_1fr]"], sections)
    else if c.layout == "grid" then
      Panel(GridPanel, ["grid gap-3 p-4", widthClass, "md:" + DropdownGridClass(c)], sections)
    else
      Panel(ListPanel, ["grid gap-3 p-4", widthClass], sections)
  }

  /** An item the renderer can draw: a link, or anything else that has content. */
  predicate ItemRenders(item: NavItem) {
    item.itemType == "link" || item.content.Some?
  }

  /** `transition-none` applies only when `style.transition` is exactly `false`. */
  predicate TransitionNone(item: NavItem) {
    item.style.Some? && item.style.value.transition == Some(false)
  }

  /** One top-level item: a link (with `'#'` for a missing or empty href), or
      a trigger whose panel needs the item's `content`. */
  function RenderItem(item: NavItem): (r: Result<TopEntry, RenderError>)
    ensures r.Ok? <==> ItemRenders(item)
    ensures r.Ok? ==> r.value.text == item.text
  {
    if item.itemType == "link" then Ok(TopLink(item.text, OrText(item.href, "#"), TransitionNone(item)))
    else if item.content.Some? then Ok(TopDropdown(item.text, RenderDropdown(item.content.value)))
    else Err(ContentMissing(item.text))
  }

  /** `config.items.map(...)`: one entry per item, in order; the first item
      that cannot be drawn makes the whole render fail. */
  function RenderItems(items: seq<NavItem>): (r: Result<seq<TopEntry>, RenderError>)
    ensures r.Ok? <==> forall i :: 0 <= i < |items| ==> ItemRenders(items[i])
    ensures r.Ok? ==> |r.value| == |items| && forall i :: 0 <= i < |items| ==> Ok(r.value[i]) == RenderItem(items[i])
    ensures r.Err? ==> exists i :: 0 <= i < |items| && !ItemRenders(items[i]) && r.error == ContentMissing(items[i].text)
  {
    if items == [] then Ok([])
    else
      match RenderItem(items[0])
      case Err(e) => Err(e)
      case Ok(t) =>
        match RenderItems(items[1..])
        case Err(e) => Err(e)
        case Ok(ts) => Ok([t] + ts)
  }

  /** `HeaderNavigation`. */
  function RenderNav(config: NavConfig): (r: Result<NavView, RenderError>)
    ensures r.Ok? ==> r.value.viewport == config.viewport && |r.value.entries| == |config.items|
    ensures r.Err? ==> exists i :: 0 <= i < |config.items| && !ItemRenders(config.items[i]) && r.error == ContentMissing(config.items[i].text)
  {
    match RenderItems(config.items)
    case Err(e) => Err(e)
    case Ok(entries) => Ok(NavView(config.viewport, entries))
  }

  /** A configuration the renderer can draw: every item that is not a link has content. */
  predicate WellFormed(config: NavConfig) {
    forall i :: 0 <= i < |config.items| ==> config.items[i].itemType != "link" ==> config.items[i].content.Some?
  }

  /** A configuration whose enumerations stay within the declared unions. */
  predicate Typed(config: NavConfig) {
    forall i :: 0 <= i < |config.items| ==> TypedItem(config.items[i])
  }

  predicate TypedItem(item: NavItem) {
    && item.itemType in {"dropdown", "link", "mega"}
    && (item.content.Some? ==> TypedContent(item.content.value))
  }

  predicate TypedContent(c: DropdownContent) {
    && c.layout in {"grid", "list", "featured"}
    && c.width in KnownWidths
    && (c.columns.Some? ==> 1 <= c.columns.value <= 4)
    && (c.sections.Some? ==> forall j :: 0 <= j < |c.sections.value| ==> TypedSection(c.sections.value[j]))
  }

  predicate TypedSection(s: Section) {
    && s.sectionType in {"featured", "list", "icon-list", "description-list"}
    && (s.featured.Some? && s.featured.value.gradient.Some? ==> s.featured.value.gradient.value in {"muted", "primary", "secondary"})
  }

  // ---------------------------------------------------------------------------
  // Properties

  /** The four known widths map to four distinct classes. */
  lemma WidthClassesDistinct(a: string, b: string)
    requires a in KnownWidths && b in KnownWidths && a != b
    ensures WidthClass(a) != WidthClass(b)
  {
  }

  /** The three declared gradients map to three distinct classes. */
  lemma GradientClassesDistinct(a: string, b: string)
    requires a in {"muted", "primary", "secondary"} && b in {"muted", "primary", "secondary"} && a != b
    ensures GradientClass(a) != GradientClass(b)
  {
  }

  /** A grid with no column count gets an empty grid class (its container
      class is a bare `md:`), not the `grid-cols-2` default of `getGridClass`. */
  lemma GridWithoutColumnsHasNoGridClass(c: DropdownContent)
    requires c.layout == "grid" && c.columns.None?
    ensures DropdownGridClass(c) == ""
    ensures GridClass(0, c.layout) == "grid-cols-2"
    ensures RenderDropdown(c).container == GridPanel
    ensures RenderDropdown(c).classes[2] == "md:"
  {
  }

  /** A typed grid with a column count n gets `md:grid-cols-n`. */
  lemma GridWithColumns(c: DropdownContent)
    requires c.layout == "grid" && c.columns.Some? && 1 <= c.columns.value <= 4
    ensures RenderDropdown(c).classes == ["grid gap-3 p-4", WidthClass(c.width), "md:grid-cols-" + [ColumnDigit(c.columns.value)]]
  {
    var digit := [ColumnDigit(c.columns.value)];
    assert "md:" + ("grid-cols-" + digit) == "md:grid-cols-" + digit;
  }

  /** A section is a featured card exactly when its type is featured and it has
      a featured object; the card carries that object's title, description,
      href and gradient class, and a card without a gradient is muted. A
      featured section without the object renders nothing. */
  lemma FeaturedSectionRendering(s: Section)
    ensures (|RenderSection(s)| == 1 && RenderSection(s)[0].FeaturedCard?) <==>
            (s.sectionType == "featured" && s.featured.Some?)
    ensures s.sectionType == "featured" && s.featured.None? ==> RenderSection(s) == []
    ensures s.sectionType == "featured" && s.featured.Some? && s.featured.value.gradient.None? ==>
            RenderSection(s)[0].gradientClass == MutedGradient
    ensures s.sectionType == "featured" && s.featured.Some? ==>
            var f := s.featured.value;
            RenderSection(s) == [FeaturedCard(f.title, f.description, f.href, GradientClass(OrText(f.gradient, "muted")))]
  {
    if s.sectionType != "featured" || s.featured.None? {
      var r := RenderSection(s);
      if |r| == 1 {
        assert !r[0].FeaturedCard?;
      }
    }
  }

  /** The three list kinds render one link per item, in order, with its label
      and href; a missing item list renders nothing; any other type, nothing. */
  lemma ListSectionsKeepItems(s: Section)
    requires s.sectionType in {"description-list", "icon-list", "list"}
    ensures var r := RenderSection(s);
      var items := OrList(s.items, []);
      && |r| == |items|
      && (forall i :: 0 <= i < |items| ==> r[i].Label() == items[i].text && r[i].href == items[i].href)
      && (s.sectionType == "description-list" ==>
            forall i :: 0 <= i < |items| ==> r[i] == DescribedLink(items[i].text, items[i].href, items[i].description))
      && (s.sectionType == "icon-list" ==>
            forall i :: 0 <= i < |items| ==> r[i] == IconLink(items[i].text, items[i].href, items[i].icon))
      && (s.sectionType == "list" ==>
            forall i :: 0 <= i < |items| ==> r[i] == PlainLink(items[i].text, items[i].href))
  {
  }

  lemma UnknownSectionRendersNothing(s: Section)
    requires s.sectionType !in {"featured", "description-list", "icon-list", "list"}
    ensures RenderSection(s) == []
  {
  }

  /** The render succeeds exactly on well-formed configurations. */
  lemma RenderSucceedsIffWellFormed(config: NavConfig)
    ensures RenderNav(config).Ok? <==> WellFormed(config)
  {
  }

  /** A well-formed configuration renders one entry per item, in order: links
      get their href or `'#'`, `transition-none` only for an explicit false,
      and every other item becomes a dropdown of its content. */
  lemma TopLevelOneEntryPerItem(config: NavConfig, i: int)
    requires WellFormed(config) && 0 <= i < |config.items|
    ensures RenderNav(config).Ok?
    ensures var entries := RenderNav(config).value.entries;
      var item := config.items[i];
      && |entries| == |config.items|
      && entries[i].text == item.text
      && (entries[i].TopLink? <==> item.itemType == "link")
      && (entries[i].TopLink? ==>
            && entries[i].href == (if item.href.Some? && item.href.value != "" then item.href.value else "#")
            && (entries[i].transitionNone <==> item.style.Some? && item.style.value.transition == Some(false)))
      && (entries[i].TopDropdown? ==> entries[i].panel == RenderDropdown(item.content.value))
  {
    RenderSucceedsIffWellFormed(config);
  }
}
