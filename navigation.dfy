/**
 * The navigation of src/components/Navigation.tsx: the menu entries, the scroll-spy
 * that highlights the section in view, the `scrolled` look of the top bar and the
 * mobile menu toggle.
 */
module Navigation {

  /** The ids the scroll-spy looks up, in the order it scans them. */
  const SectionIds: seq<string> := ["home", "about", "experience", "education", "certifications", "projects", "contact"]

  /**
   * The section ids in the order the page renders them: `home` wraps the hero in
   * src/pages/Index.tsx, then About, Experience, Education, Certifications, Projects
   * and Contact each render a section with their own id.
   */
  const PageSectionIds: seq<string> := ["home", "about", "experience", "education", "certifications", "projects", "contact"]

  /** A menu entry: its label's translation key, its anchor and the section it stands for. */
  datatype MenuItem = MenuItem(labelKey: string, href: string, id: string)

  const MenuItems: seq<MenuItem> := [
    MenuItem("nav.home", "#home", "home"),
    MenuItem("nav.about", "#about", "about"),
    MenuItem("nav.experience", "#experience", "experience"),
    MenuItem("nav.education", "#education", "education"),
    MenuItem("nav.certifications", "#certifications", "certifications"),
    MenuItem("nav.projects", "#projects", "projects"),
    MenuItem("nav.contact", "#contact", "contact")
  ]

  /** The menu lists the scroll-spy's sections in its order, each linking to its own anchor, and the page renders them in that order. */
  lemma MenuMatchesSections()
    ensures |MenuItems| == |SectionIds| == |PageSectionIds|
    ensures forall i :: 0 <= i < |MenuItems| ==>
      MenuItems[i].id == SectionIds[i] == PageSectionIds[i] && MenuItems[i].href == "#" + SectionIds[i]
  {
  }

  /** A cached section position: `top` is its distance from the top of the document. */
  datatype Offset = Offset(id: string, top: real)

  /** The ids of a list of offsets, in order. */
  function Ids(os: seq<Offset>): (ids: seq<string>)
    ensures |ids| == |os| && forall k :: 0 <= k < |os| ==> ids[k] == os[k].id
  {
    if os == [] then [] else [os[0].id] + Ids(os[1..])
  }

  /** `xs` is `ys` with some elements left out, the rest in the same order. */
  ghost predicate SubsequenceOf(xs: seq<string>, ys: seq<string>)
  {
    if xs == [] then true
    else if ys == [] then false
    else (xs[0] == ys[0] && SubsequenceOf(xs[1..], ys[1..])) || SubsequenceOf(xs, ys[1..])
  }

  /**
   * The `map` step of `updateOffsets`: a section found in the document gets its
   * absolute top (`getBoundingClientRect().top + scrollY`, given here by `doc`), a
   * missing one gets top -1.
   */
  function Measure(id: string, doc: map<string, real>): Offset
  {
    if id in doc then Offset(id, doc[id]) else Offset(id, -1.0)
  }

  /**
   * `updateOffsets`: measure every id and keep the ones with a top of at least 0.
   * Only sections present in the document survive, with non-negative tops, in the
   * order of `ids`.
   */
  function UpdateOffsets(ids: seq<string>, doc: map<string, real>): (r: seq<Offset>)
    ensures forall k :: 0 <= k < |r| ==> r[k].id in doc && r[k].top == doc[r[k].id] && r[k].top >= 0.0
    ensures forall id :: id in Ids(r) <==> id in ids && id in doc && doc[id] >= 0.0
    ensures SubsequenceOf(Ids(r), ids)
  {
    if ids == [] then
      []
    else
      var m := Measure(ids[0], doc);
      var rest := UpdateOffsets(ids[1..], doc);
      if m.top >= 0.0 then
        assert Ids([m] + rest) == [m.id] + Ids(rest);
        [m] + rest
      else
        rest
  }

  /**
   * The loop of `handleScroll`: scanning from the last cached section backwards,
   * the first one whose top is at or above `scrollPos`; -1 when there is none.
   * Every section after the one found lies below `scrollPos`.
   */
  method ScanBack(offsets: seq<Offset>, scrollPos: real) returns (i: int)
    ensures -1 <= i < |offsets|
    ensures 0 <= i ==> offsets[i].top <= scrollPos
    ensures forall j :: i < j < |offsets| ==> offsets[j].top > scrollPos
  {
    i := |offsets| - 1;
    while i >= 0
      invariant -1 <= i < |offsets|
      invariant forall j :: i < j < |offsets| ==> offsets[j].top > scrollPos
    {
      if offsets[i].top <= scrollPos {
        return;
      }
      i := i - 1;
    }
  }

  /**
   * What the scan of `handleScroll` leaves as the active section: the id of the last
   * cached section at or above `pos`, every later one lying below it; or `before`
   * when no cached section is at or above `pos`.
   */
  ghost predicate ScanSettles(offsets: seq<Offset>, pos: real, before: string, after: string)
  {
    (exists i :: 0 <= i < |offsets| && offsets[i].top <= pos && after == offsets[i].id &&
       forall j :: i < j < |offsets| ==> offsets[j].top > pos)
    || (after == before && forall j :: 0 <= j < |offsets| ==> offsets[j].top > pos)
  }

  /** The scan's outcome is determined: two outcomes that both settle are the same section. */
  lemma ScanSettlesUniquely(offsets: seq<Offset>, pos: real, before: string, a: string, b: string)
    requires ScanSettles(offsets, pos, before, a) && ScanSettles(offsets, pos, before, b)
    ensures a == b
  {
    if i :| (0 <= i < |offsets| && offsets[i].top <= pos && a == offsets[i].id &&
             forall j :: i < j < |offsets| ==> offsets[j].top > pos) {
      var k :| (0 <= k < |offsets| && offsets[k].top <= pos && b == offsets[k].id &&
                forall j :: k < j < |offsets| ==> offsets[j].top > pos);
      assert i == k;
    }
  }

  /** A section's position is the scroll-spy threshold: the top third of the viewport. */
  function ScrollPos(scrollY: real, innerHeight: real): real
  {
    scrollY + innerHeight / 3.0
  }

  /** The top bar switches to its filled look past 40 pixels of scrolling. */
  function Scrolled(scrollY: real): (b: bool)
  {
    scrollY > 40.0
  }

  /** A menu entry is highlighted when it stands for the active section. */
  predicate IsActive(item: MenuItem, activeSection: string)
  {
    item.id == activeSection
  }

  /** The position of a section id in the menu. */
  function MenuIndex(id: string): int
  {
    if id == "home" then 0
    else if id == "about" then 1
    else if id == "experience" then 2
    else if id == "education" then 3
    else if id == "certifications" then 4
    else if id == "projects" then 5
    else if id == "contact" then 6
    else -1
  }

  lemma MenuIndexOfItem(i: nat)
    requires i < |MenuItems|
    ensures MenuIndex(MenuItems[i].id) == i
  {
    if i == 0 {
    } else if i == 1 {
    } else if i == 2 {
    } else if i == 3 {
    } else if i == 4 {
    } else if i == 5 {
    } else {
    }
  }

  /** The section ids are distinct, so at most one menu entry is highlighted. */
  lemma AtMostOneActive(activeSection: string, i: nat, j: nat)
    requires i < |MenuItems| && j < |MenuItems|
    requires IsActive(MenuItems[i], activeSection) && IsActive(MenuItems[j], activeSection)
    ensures i == j
  {
    MenuIndexOfItem(i);
    MenuIndexOfItem(j);
  }

  datatype NavListener = ScrollListener | ResizeListener

  /** The component's state cells, the offsets its effect caches and the listeners it holds. */
  class Nav {
    var isOpen: bool
    var activeSection: string
    var scrolled: bool
    var cachedOffsets: seq<Offset>
    var listeners: set<NavListener>

    /** The highlighted section is always one of the menu's sections, and so is every cached one. */
    ghost predicate Valid()
      reads this
    {
      activeSection in SectionIds && forall k :: 0 <= k < |cachedOffsets| ==> cachedOffsets[k].id in SectionIds
    }

    constructor ()
      ensures Valid()
      ensures !isOpen && activeSection == "home" && !scrolled && cachedOffsets == [] && listeners == {}
    {
      isOpen := false;
      activeSection := "home";
      scrolled := false;
      cachedOffsets := [];
      listeners := {};
    }

    /** `updateOffsets`, run at mount and on every resize. */
    method Remeasure(doc: map<string, real>)
      requires Valid()
      modifies this
      ensures Valid()
      ensures cachedOffsets == UpdateOffsets(SectionIds, doc)
      ensures isOpen == old(isOpen) && activeSection == old(activeSection) && scrolled == old(scrolled)
      ensures listeners == old(listeners)
    {
      cachedOffsets := UpdateOffsets(SectionIds, doc);
    }

    /**
     * `handleScroll`: `scrolled` follows the 40-pixel threshold, and the active
     * section becomes the last cached section at or above the threshold, or stays
     * as it was when none is.
     */
    method HandleScroll(scrollY: real, innerHeight: real)
      requires Valid()
      modifies this
      ensures Valid()
      ensures scrolled == Scrolled(scrollY)
      ensures ScanSettles(cachedOffsets, ScrollPos(scrollY, innerHeight), old(activeSection), activeSection)
      ensures isOpen == old(isOpen) && cachedOffsets == old(cachedOffsets) && listeners == old(listeners)
    {
      scrolled := Scrolled(scrollY);
      var scrollPos := ScrollPos(scrollY, innerHeight);
      var i := ScanBack(cachedOffsets, scrollPos);
      if i >= 0 {
        activeSection := cachedOffsets[i].id;
      }
    }

    /** The mount effect: measure, listen to scroll and resize, and run the scroll handler once. */
    method Mount(doc: map<string, real>, scrollY: real, innerHeight: real)
      requires Valid()
      modifies this
      ensures Valid()
      ensures cachedOffsets == UpdateOffsets(SectionIds, doc)
      ensures listeners == old(listeners) + {ScrollListener, ResizeListener}
      ensures scrolled == Scrolled(scrollY) && isOpen == old(isOpen)
      ensures ScanSettles(cachedOffsets, ScrollPos(scrollY, innerHeight), old(activeSection), activeSection)
    {
      Remeasure(doc);
      listeners := listeners + {ScrollListener, ResizeListener};
      HandleScroll(scrollY, innerHeight);
    }

    /** The effect's cleanup removes both listeners. */
    method Unmount()
      requires Valid()
      modifies this
      ensures Valid()
      ensures listeners == old(listeners) - {ScrollListener, ResizeListener}
      ensures isOpen == old(isOpen) && activeSection == old(activeSection) && scrolled == old(scrolled)
      ensures cachedOffsets == old(cachedOffsets)
    {
      listeners := listeners - {ScrollListener, ResizeListener};
    }

    /** A scroll event reaches `handleScroll` only while its listener is attached. */
    method OnScroll(scrollY: real, innerHeight: real)
      requires Valid()
      modifies this
      ensures Valid()
      ensures ScrollListener !in listeners ==>
        isOpen == old(isOpen) && activeSection == old(activeSection) && scrolled == old(scrolled) && cachedOffsets == old(cachedOffsets)
      ensures ScrollListener in listeners ==> scrolled == Scrolled(scrollY)
      ensures ScrollListener in listeners ==>
        ScanSettles(cachedOffsets, ScrollPos(scrollY, innerHeight), old(activeSection), activeSection)
      ensures listeners == old(listeners) && isOpen == old(isOpen) && cachedOffsets == old(cachedOffsets)
    {
      if ScrollListener in listeners {
        HandleScroll(scrollY, innerHeight);
      }
    }

    /** A resize event reaches `updateOffsets` only while its listener is attached. */
    method OnResize(doc: map<string, real>)
      requires Valid()
      modifies this
      ensures Valid()
      ensures cachedOffsets == if ResizeListener in listeners then UpdateOffsets(SectionIds, doc) else old(cachedOffsets)
      ensures isOpen == old(isOpen) && activeSection == old(activeSection) && scrolled == old(scrolled)
      ensures listeners == old(listeners)
    {
      if ResizeListener in listeners {
        Remeasure(doc);
      }
    }

    /** The hamburger button. */
    method ToggleMenu()
      requires Valid()
      modifies this
      ensures Valid()
      ensures isOpen == !old(isOpen)
      ensures activeSection == old(activeSection) && scrolled == old(scrolled)
      ensures cachedOffsets == old(cachedOffsets) && listeners == old(listeners)
    {
      isOpen := !isOpen;
    }

    /** Choosing an entry of the mobile menu closes it. */
    method SelectMobileItem()
      requires Valid()
      modifies this
      ensures Valid()
      ensures !isOpen
      ensures activeSection == old(activeSection) && scrolled == old(scrolled)
      ensures cachedOffsets == old(cachedOffsets) && listeners == old(listeners)
    {
      isOpen := false;
    }
  }
}
