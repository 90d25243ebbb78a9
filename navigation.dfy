/**
 The header's scroll handling: the `scrolled` flag, the in-page sections
 named by the navigation, the rule that picks the active one from the page
 geometry, and the test that marks a navigation link as active.
 */
module Navigation {
  import opened JsString

  datatype NavItem = NavItem(name: string, href: string)

  /** The bounding box of an element, top and bottom edges in pixels. */
  datatype Rect = Rect(top: int, bottom: int)

  /** What a scroll handler reads from the window: the scroll offset, the
      viewport height and the elements of the page by id. */
  datatype Window = Window(scrollY: int, innerHeight: int, elements: map<string, Rect>)

  predicate StartsWithHash(href: string) {
    |href| > 0 && href[0] == '#'
  }

  /** `document.getElementById(id)`; no element has the empty id. */
  function ElementById(w: Window, id: string): (e: Option<Rect>)
    ensures e.Some? <==> id != "" && id in w.elements
    ensures e.Some? ==> e.value == w.elements[id]
  {
    if id != "" && id in w.elements then Some(w.elements[id]) else None
  }

  /** The navigation's in-page targets: each '#' link's href without the
      '#', in navigation order. */
  function SectionIds(nav: seq<NavItem>): (ids: seq<string>)
    ensures |ids| <= |nav|
    decreases |nav|
  {
    if nav == [] then []
    else if StartsWithHash(nav[0].href) then [nav[0].href[1..]] + SectionIds(nav[1..])
    else SectionIds(nav[1..])
  }

  /** A section counts as in view when its element exists, its top edge is
      within the upper 40% of the viewport and its bottom edge is at least
      100 pixels down. */
  predicate Qualifies(w: Window, id: string)
    ensures Qualifies(w, id) ==> id != "" && id in w.elements
  {
    var e := ElementById(w, id);
    e.Some? && 5 * e.value.top <= 2 * w.innerHeight && e.value.bottom >= 100
  }

  /** The position of the last section in view, or -1 when none is. */
  function LastQualifyingIndex(ids: seq<string>, w: Window): (k: int)
    ensures -1 <= k < |ids|
    ensures k >= 0 ==> Qualifies(w, ids[k])
    ensures forall j :: k < j < |ids| ==> !Qualifies(w, ids[j])
    decreases |ids|
  {
    if ids == [] then -1
    else if Qualifies(w, ids[|ids| - 1]) then |ids| - 1
    else LastQualifyingIndex(ids[..|ids| - 1], w)
  }

  /** The active section: the last one in view, or '' when none is. */
  function ActiveSection(ids: seq<string>, w: Window): (a: string)
    ensures a == "" || (a in ids && Qualifies(w, a))
  {
    var k := LastQualifyingIndex(ids, w);
    if k < 0 then "" else ids[k]
  }

  /** The loop of handleScroll: walk the sections in order and remember
      the latest one in view. */
  method ScanSections(ids: seq<string>, w: Window) returns (current: string)
    ensures current == ActiveSection(ids, w)
  {
    current := "";
    var i := 0;
    while i < |ids|
      invariant 0 <= i <= |ids|
      invariant current == ActiveSection(ids[..i], w)
    {
      assert ids[..i + 1][..i] == ids[..i];
      var element := ElementById(w, ids[i]);
      if element.Some? {
        var rect := element.value;
        if 5 * rect.top <= 2 * w.innerHeight && rect.bottom >= 100 {
          current := ids[i];
        }
      }
      i := i + 1;
    }
    assert ids[..i] == ids;
  }

  /** `isActive(href)` for the recorded active section. */
  function IsActive(active: string, href: string): (b: bool)
    ensures b ==> href == "/" || href == "#" + active
    ensures href == "#" + active ==> b
  {
    if href == "/" then active == ""
    else if StartsWithHash(href) then active == href[1..]
    else false
  }

  /** The section ids are exactly the '#' hrefs without their '#'. */
  lemma {:induction false} SectionIdsMembers(nav: seq<NavItem>, id: string)
    ensures id in SectionIds(nav) <==> exists i :: 0 <= i < |nav| && nav[i].href == "#" + id
    decreases |nav|
  {
    if nav != [] {
      SectionIdsMembers(nav[1..], id);
      var h := nav[0].href;
      if StartsWithHash(h) {
        assert h == "#" + h[1..];
      }
      if exists i :: 0 <= i < |nav| && nav[i].href == "#" + id {
        var i :| 0 <= i < |nav| && nav[i].href == "#" + id;
        if i > 0 {
          assert nav[1..][i - 1].href == "#" + id;
        }
      }
      if exists i :: 0 <= i < |nav[1..]| && nav[1..][i].href == "#" + id {
        var i :| 0 <= i < |nav[1..]| && nav[1..][i].href == "#" + id;
        assert nav[i + 1].href == "#" + id;
      }
    }
  }

  /** Selecting sections distributes over concatenation, so the ids keep
      the navigation's order. */
  lemma {:induction false} SectionIdsAppend(a: seq<NavItem>, b: seq<NavItem>)
    ensures SectionIds(a + b) == SectionIds(a) + SectionIds(b)
    decreases |a|
  {
    if a == [] {
      assert a + b == b;
    } else {
      assert (a + b)[1..] == a[1..] + b;
      SectionIdsAppend(a[1..], b);
    }
  }

  /** The active section is '' or one of the section ids, and it is '' only
      when no section is in view. */
  lemma ActiveIsListedOrEmpty(ids: seq<string>, w: Window)
    ensures ActiveSection(ids, w) == "" || ActiveSection(ids, w) in ids
    ensures ActiveSection(ids, w) == "" <==> forall j :: 0 <= j < |ids| ==> !Qualifies(w, ids[j])
  {
  }

  /** A later section in view overrides an earlier one. */
  lemma LaterSectionWins(ids: seq<string>, w: Window, i: nat, j: nat)
    requires i < j < |ids| && Qualifies(w, ids[i]) && Qualifies(w, ids[j])
    requires forall m :: j < m < |ids| ==> !Qualifies(w, ids[m])
    ensures ActiveSection(ids, w) == ids[j]
  {
  }

  /** The home link is active exactly when no section is in view. */
  lemma HomeActiveIffNoneInView(nav: seq<NavItem>, w: Window)
    ensures var ids := SectionIds(nav);
            IsActive(ActiveSection(ids, w), "/") <==> forall j :: 0 <= j < |ids| ==> !Qualifies(w, ids[j])
  {
    ActiveIsListedOrEmpty(SectionIds(nav), w);
  }

  /** At most one '#' link is active, and a link that is neither '/' nor a
      '#' link never is. */
  lemma ActiveLinkUnique(active: string, h1: string, h2: string)
    ensures IsActive(active, h1) && IsActive(active, h2) && StartsWithHash(h1) && StartsWithHash(h2) ==> h1 == h2
    ensures h1 != "/" && !StartsWithHash(h1) ==> !IsActive(active, h1)
  {
    if IsActive(active, h1) && IsActive(active, h2) && StartsWithHash(h1) && StartsWithHash(h2) {
      assert h1 == [h1[0]] + h1[1..];
      assert h2 == [h2[0]] + h2[1..];
    }
  }

  /** When a section is active, its navigation link exists and is the one
      marked active. */
  lemma ActiveSectionHasLink(nav: seq<NavItem>, w: Window)
    requires ActiveSection(SectionIds(nav), w) != ""
    ensures var a := ActiveSection(SectionIds(nav), w);
            exists i :: 0 <= i < |nav| && nav[i].href == "#" + a && IsActive(a, nav[i].href)
  {
    var a := ActiveSection(SectionIds(nav), w);
    ActiveIsListedOrEmpty(SectionIds(nav), w);
    SectionIdsMembers(nav, a);
    var i :| 0 <= i < |nav| && nav[i].href == "#" + a;
    assert nav[i].href[1..] == a;
  }

  /** The header's state cells and its scroll handler. */
  class Header {
    const navigation: seq<NavItem>
    var scrolled: bool
    var activeSection: string

    constructor(navigation: seq<NavItem>)
      ensures this.navigation == navigation
      ensures !scrolled && activeSection == ""
    {
      this.navigation := navigation;
      scrolled := false;
      activeSection := "";
    }

    /** handleScroll: the flag follows the scroll offset and the active
        section is recomputed from the page. */
    method HandleScroll(w: Window)
      modifies this
      ensures scrolled == (w.scrollY > 20)
      ensures activeSection == ActiveSection(SectionIds(navigation), w)
      ensures LinkIsActive("/") <==> forall j :: 0 <= j < |SectionIds(navigation)| ==> !Qualifies(w, SectionIds(navigation)[j])
    {
      scrolled := w.scrollY > 20;
      var sections := SectionIds(navigation);
      var current := ScanSections(sections, w);
      if current == "" && w.scrollY < 100 {
        current := "";
      }
      activeSection := current;
      HomeActiveIffNoneInView(navigation, w);
    }

    /** `isActive(href)` for the current state. */
    function LinkIsActive(href: string): bool
      reads this
    {
      IsActive(activeSection, href)
    }
  }
}
