/**
 * The navigation header: which section is highlighted while the page
 * scrolls, whether the header has its scrolled backdrop, the mobile menu,
 * and the offset-compensated scroll to a section.
 *
 * The page is seen through a `Layout`: for each section id whose element is
 * in the document, its bounding rectangle relative to the viewport at that
 * moment. Pixel values are integers.
 */
module Navigation {
  import opened Wrappers

  /** The sections in page order. */
  const Sections: seq<string> := ["home", "skills", "experience", "projects", "goals", "contact"]

  /** Scroll offset beyond which the header shows its backdrop. */
  const ScrolledThreshold: int := 50
  /** Distance from the viewport top of the line a section must straddle to be active. */
  const ActivationLine: int := 100
  /** Height of the fixed header, kept clear above a section scrolled to. */
  const HeaderOffset: int := 80

  datatype Rect = Rect(top: int, bottom: int)

  type Layout = map<string, Rect>

  /** The element of `id` exists and its rectangle straddles the activation line. */
  predicate Straddles(layout: Layout, id: string) {
    id in layout && layout[id].top <= ActivationLine && layout[id].bottom >= ActivationLine
  }

  /** The `find` over the section list, from index `from` on: the index of the
      first id whose element exists and straddles the line. */
  function FirstStraddling(ids: seq<string>, layout: Layout, from: nat): (r: Option<nat>)
    requires from <= |ids|
    decreases |ids| - from
    ensures r.None? <==> forall k :: from <= k < |ids| ==> !Straddles(layout, ids[k])
    ensures r.Some? ==> from <= r.value < |ids| && Straddles(layout, ids[r.value])
                        && forall k :: from <= k < r.value ==> !Straddles(layout, ids[k])
  {
    if from == |ids| then None
    else if Straddles(layout, ids[from]) then Some(from)
    else FirstStraddling(ids, layout, from + 1)
  }

  /** The active section after a scroll event: the first straddling section,
      or the previous one when none straddles. */
  function NextActive(previous: string, layout: Layout): string {
    match FirstStraddling(Sections, layout, 0)
    case Some(k) => Sections[k]
    case None => previous
  }

  lemma NextActiveIsFirstStraddling(previous: string, layout: Layout)
    ensures forall k :: 0 <= k < |Sections| && Straddles(layout, Sections[k])
                        && (forall j :: 0 <= j < k ==> !Straddles(layout, Sections[j]))
                        ==> NextActive(previous, layout) == Sections[k]
    ensures (forall k :: 0 <= k < |Sections| ==> !Straddles(layout, Sections[k]))
            ==> NextActive(previous, layout) == previous
    ensures NextActive(previous, layout) != previous ==> NextActive(previous, layout) in Sections
  {
    match FirstStraddling(Sections, layout, 0)
    case None =>
    case Some(first) =>
      forall k | 0 <= k < |Sections| && Straddles(layout, Sections[k])
                 && (forall j :: 0 <= j < k ==> !Straddles(layout, Sections[j]))
        ensures Sections[first] == Sections[k]
      {
        assert !(k < first) && !(first < k);
      }
  }

  /** The active section after a series of scroll events. */
  function ActiveAfter(previous: string, layouts: seq<Layout>): string
    decreases |layouts|
  {
    if layouts == [] then previous
    else ActiveAfter(NextActive(previous, layouts[0]), layouts[1..])
  }

  /** Starting from any section, and so from the initial `"home"`, the active
      id is one of the six sections whatever the page does. */
  lemma {:induction false} ActiveAlwaysASection(previous: string, layouts: seq<Layout>)
    requires previous in Sections
    ensures ActiveAfter(previous, layouts) in Sections
    decreases |layouts|
  {
    if layouts != [] {
      NextActiveIsFirstStraddling(previous, layouts[0]);
      ActiveAlwaysASection(NextActive(previous, layouts[0]), layouts[1..]);
    }
  }

  /** `top + scrollY - 80`: the document offset that puts a section's top edge
      just below the fixed header. */
  function ScrollTarget(top: int, scrollY: int): int {
    top + scrollY - HeaderOffset
  }

  /** The layout after the page has scrolled down by `delta` pixels. */
  function Scrolled(layout: Layout, delta: int): Layout {
    map id | id in layout :: Rect(layout[id].top - delta, layout[id].bottom - delta)
  }

  /** Scrolling to the target places the section's top edge 80 pixels below
      the viewport top, and the section then straddles the activation line
      exactly when it is at least 20 pixels tall. */
  lemma ScrollTargetPlacesSectionBelowHeader(layout: Layout, id: string, scrollY: int)
    requires id in layout
    ensures Scrolled(layout, ScrollTarget(layout[id].top, scrollY) - scrollY)[id].top == HeaderOffset
    ensures Straddles(Scrolled(layout, ScrollTarget(layout[id].top, scrollY) - scrollY), id)
            <==> layout[id].bottom - layout[id].top >= ActivationLine - HeaderOffset
  {
  }

  class Header {
    var activeSection: string
    var isScrolled: bool
    var isMobileMenuOpen: bool
    /** The deferred scrolls set up by `setTimeout` and not yet run, oldest first. */
    var pendingScrolls: seq<string>

    ghost predicate Valid()
      reads this
    {
      activeSection in Sections
    }

    constructor ()
      ensures Valid()
      ensures activeSection == "home" && !isScrolled && !isMobileMenuOpen && pendingScrolls == []
    {
      activeSection := "home";
      isScrolled := false;
      isMobileMenuOpen := false;
      pendingScrolls := [];
    }

    /** `handleScroll`, given the scroll offset and the layout at that moment. */
    method HandleScroll(scrollY: int, layout: Layout)
      requires Valid()
      modifies this
      ensures Valid()
      ensures isScrolled == (scrollY > ScrolledThreshold)
      ensures activeSection == NextActive(old(activeSection), layout)
      ensures isMobileMenuOpen == old(isMobileMenuOpen) && pendingScrolls == old(pendingScrolls)
    {
      isScrolled := scrollY > ScrolledThreshold;
      var current := FirstStraddling(Sections, layout, 0);
      if current.Some? {
        activeSection := Sections[current.value];
      }
    }

    /** `scrollToSection`: returns the offset scrolled to now, if any. With the
        mobile menu open the menu closes and the scroll waits for the timer. */
    method ScrollToSection(id: string, scrollY: int, layout: Layout) returns (scrollTo: Option<int>)
      requires Valid()
      modifies this
      ensures Valid()
      ensures activeSection == old(activeSection) && isScrolled == old(isScrolled)
      ensures id !in layout ==>
        scrollTo == None && isMobileMenuOpen == old(isMobileMenuOpen) && pendingScrolls == old(pendingScrolls)
      ensures id in layout && old(isMobileMenuOpen) ==>
        scrollTo == None && !isMobileMenuOpen && pendingScrolls == old(pendingScrolls) + [id]
      ensures id in layout && !old(isMobileMenuOpen) ==>
        scrollTo == Some(ScrollTarget(layout[id].top, scrollY))
        && !isMobileMenuOpen && pendingScrolls == old(pendingScrolls)
    {
      scrollTo := None;
      if id in layout {
        if isMobileMenuOpen {
          isMobileMenuOpen := false;
          pendingScrolls := pendingScrolls + [id];
        } else {
          scrollTo := Some(ScrollTarget(layout[id].top, scrollY));
        }
      }
    }

    /** The oldest timer fires; `top` is its section's rectangle top now, after
        the menu has collapsed. Returns the section and the offset scrolled to. */
    method RunDeferredScroll(scrollY: int, top: int) returns (id: string, scrollTo: int)
      requires Valid() && pendingScrolls != []
      modifies this
      ensures Valid()
      ensures id == old(pendingScrolls[0]) && pendingScrolls == old(pendingScrolls[1..])
      ensures scrollTo == ScrollTarget(top, scrollY)
      ensures activeSection == old(activeSection) && isScrolled == old(isScrolled)
      ensures isMobileMenuOpen == old(isMobileMenuOpen)
    {
      id := pendingScrolls[0];
      pendingScrolls := pendingScrolls[1..];
      scrollTo := ScrollTarget(top, scrollY);
    }

    /** The mobile menu button. */
    method ToggleMenu()
      requires Valid()
      modifies this
      ensures Valid()
      ensures isMobileMenuOpen == !old(isMobileMenuOpen)
      ensures activeSection == old(activeSection) && isScrolled == old(isScrolled)
      ensures pendingScrolls == old(pendingScrolls)
    {
      isMobileMenuOpen := !isMobileMenuOpen;
    }
  }

  /** Two presses of the menu button leave the menu as it was. */
  method ToggleTwice(h: Header)
    requires h.Valid()
    modifies h
    ensures h.Valid()
    ensures h.isMobileMenuOpen == old(h.isMobileMenuOpen)
    ensures h.activeSection == old(h.activeSection) && h.pendingScrolls == old(h.pendingScrolls)
  {
    h.ToggleMenu();
    h.ToggleMenu();
  }

  /** Navigating from the open mobile menu: nothing scrolls at the click; the
      scroll happens when the timer fires, from the rectangle measured then. */
  method NavigateFromOpenMenu(scrollY: int, before: Layout, topLater: int, scrollYLater: int)
    returns (now: Option<int>, later: int)
    requires "projects" in before
    ensures now == None
    ensures later == topLater + scrollYLater - 80
  {
    var h := new Header();
    h.ToggleMenu();
    now := h.ScrollToSection("projects", scrollY, before);
    assert !h.isMobileMenuOpen && h.pendingScrolls == ["projects"];
    var id;
    id, later := h.RunDeferredScroll(scrollYLater, topLater);
    assert id == "projects" && h.pendingScrolls == [];
  }
}
