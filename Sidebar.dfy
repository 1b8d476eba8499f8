/**
 * The navigation sidebar: the section registry, the scroll-spy that picks
 * the active section from the sections' on-screen rectangles, the nav
 * buttons that scroll to a section, and the open/closed menu flag of the
 * narrow-viewport layout.
 */
module Sidebar {
  import opened Wrappers
  import Viewport

  /** A section's bounding rectangle, viewport-relative, in whole pixels (vertical extent only). */
  datatype Rect = Rect(top: int, bottom: int)

  /** The document as the sidebar sees it: the rectangle of each element present, by id. */
  type Layout = map<string, Rect>

  /** The horizontal line, in pixels from the viewport's top, that decides the active section. */
  const SpyLine: int := 200

  /** The section registry, in page order. */
  const Sections: seq<string> := ["home", "about", "experience", "skills", "projects", "contact"]

  /** One navigation button. */
  datatype NavItem = NavItem(id: string, caption: string)

  /** The navigation buttons, top to bottom. */
  const NavItems: seq<NavItem> := [
    NavItem("home", "Home"),
    NavItem("about", "About"),
    NavItem("experience", "Experience"),
    NavItem("skills", "Skills"),
    NavItem("projects", "Projects"),
    NavItem("contact", "Contact")
  ]

  /** The element with this id exists and its rectangle straddles the spy line. */
  predicate InBand(layout: Layout, id: string) {
    id in layout && layout[id].top <= SpyLine && layout[id].bottom >= SpyLine
  }

  /** The index of the first id, in order, whose element straddles the spy line (`Array.prototype.find`). */
  function FirstInBand(ids: seq<string>, layout: Layout): (r: Option<nat>)
    ensures r.Some? ==>
      r.value < |ids| && InBand(layout, ids[r.value]) &&
      forall j :: 0 <= j < r.value ==> !InBand(layout, ids[j])
    ensures r.None? ==> forall j :: 0 <= j < |ids| ==> !InBand(layout, ids[j])
  {
    if |ids| == 0 then None
    else if InBand(layout, ids[0]) then Some(0)
    else match FirstInBand(ids[1..], layout)
      case None => None
      case Some(i) => Some(i + 1)
  }

  /** The section a scroll event selects, if any. */
  function Selected(layout: Layout): (r: Option<string>)
    ensures r.Some? ==> r.value in Sections && InBand(layout, r.value)
    ensures r.Some? ==>
      exists i :: 0 <= i < |Sections| && Sections[i] == r.value &&
        forall j :: 0 <= j < i ==> !InBand(layout, Sections[j])
    ensures r.None? ==> forall id :: id in Sections ==> !InBand(layout, id)
  {
    match FirstInBand(Sections, layout)
    case None => None
    case Some(i) => Some(Sections[i])
  }

  /** The `find` of the scroll handler, one section at a time. */
  method FindCurrent(layout: Layout) returns (current: Option<string>)
    ensures current == Selected(layout)
  {
    var i := 0;
    while i < |Sections|
      invariant 0 <= i <= |Sections|
      invariant forall j :: 0 <= j < i ==> !InBand(layout, Sections[j])
    {
      var id := Sections[i];
      if id in layout {
        var rect := layout[id];
        if rect.top <= SpyLine && rect.bottom >= SpyLine {
          return Some(id);
        }
      }
      i := i + 1;
    }
    return None;
  }

  /** No two navigation buttons share an id. */
  lemma NavIdsDistinct()
    ensures forall i, j :: 0 <= i < j < |NavItems| ==> NavItems[i].id != NavItems[j].id
  {
  }

  /** The navigation lists exactly the registry, in the same order. */
  lemma NavMatchesRegistry()
    ensures |NavItems| == |Sections|
    ensures forall i :: 0 <= i < |NavItems| ==> NavItems[i].id == Sections[i]
  {
  }


  /** The sidebar component's state. */
  class SidebarState {
    var activeSection: string
    var isOpen: bool

    /** The active section is always one of the registered sections. */
    ghost predicate Valid()
      reads this
    {
      activeSection in Sections
    }

    /** First render: "home" active, menu closed. */
    constructor ()
      ensures Valid()
      ensures activeSection == "home" && !isOpen
    {
      activeSection := "home";
      isOpen := false;
    }

    /** `handleScroll`: adopt the first section on the spy line; keep the old one when none is. */
    method HandleScroll(layout: Layout)
      requires Valid()
      modifies this
      ensures Valid()
      ensures isOpen == old(isOpen)
      ensures Selected(layout).Some? ==> activeSection == Selected(layout).value
      ensures Selected(layout).None? ==> activeSection == old(activeSection)
    {
      var current := FindCurrent(layout);
      if current.Some? {
        activeSection := current.value;
      }
    }

    /** `scrollToSection`: when the target exists, scroll to it (not modelled) and close the menu. */
    method ScrollToSection(sectionId: string, layout: Layout)
      modifies this
      ensures sectionId in layout ==> !isOpen
      ensures sectionId !in layout ==> isOpen == old(isOpen)
      ensures activeSection == old(activeSection)
    {
      if sectionId in layout {
        isOpen := false;
      }
    }

    /** The menu button. */
    method ToggleMenu()
      modifies this
      ensures isOpen == !old(isOpen)
      ensures activeSection == old(activeSection)
    {
      isOpen := !isOpen;
    }

    /** A click on the overlay behind the open menu. */
    method CloseOverlay()
      modifies this
      ensures !isOpen
      ensures activeSection == old(activeSection)
    {
      isOpen := false;
    }

    /** Whether the navigation button for `id` is highlighted. */
    function IsHighlighted(id: string): (b: bool)
      requires Valid()
      reads this
      ensures b ==> id in Sections
      ensures b <==> id == activeSection
    {
      activeSection == id
    }

    /**
     * The overlay is rendered exactly while the menu is open. It carries
     * `lg:hidden`, so from 1024 px on it is rendered but never visible.
     */
    function OverlayShown(): (b: bool)
      reads this
      ensures b <==> isOpen
      ensures b ==> forall width :: SidebarShown(width)
      ensures !b ==> forall width :: width < Viewport.Lg ==> !SidebarShown(width)
    {
      isOpen
    }

    /** Whether the sidebar is rendered at this viewport width. */
    function SidebarShown(width: int): (b: bool)
      reads this
      ensures width >= Viewport.Lg ==> b
      ensures width < Viewport.Lg ==> (b <==> isOpen)
    {
      isOpen || width >= Viewport.Lg
    }
  }

  /** In any reachable sidebar state exactly one navigation button is highlighted. */
  lemma {:induction false} ExactlyOneHighlighted(s: SidebarState)
    requires s.Valid()
    ensures exists i :: 0 <= i < |NavItems| && s.IsHighlighted(NavItems[i].id)
    ensures forall i, j ::
      (0 <= i < |NavItems| && 0 <= j < |NavItems| &&
       s.IsHighlighted(NavItems[i].id) && s.IsHighlighted(NavItems[j].id)) ==> i == j
  {
    NavMatchesRegistry();
    NavIdsDistinct();
    var k :| 0 <= k < |Sections| && Sections[k] == s.activeSection;
    assert s.IsHighlighted(NavItems[k].id);
  }
}
