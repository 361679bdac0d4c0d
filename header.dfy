/**
 * The navigation header (components/header.tsx): which section is highlighted
 * as the page scrolls, and whether the mobile menu is open.
 */
module Header {
  import opened Wrappers

  /** The `href` of each navigation item, in menu order. */
  const NavHrefs: seq<string> :=
    ["#about", "#skills", "#projects", "#experience", "#education", "#extras", "#contact"]

  /** A rendered section's `offsetTop` and `offsetHeight`, in pixels. */
  datatype Box = Box(offsetTop: int, offsetHeight: int)

  /** `href.slice(1)`: the href without its leading `#`. */
  function SliceOne(h: string): (r: string)
    ensures |h| > 0 ==> h == [h[0]] + r
    ensures |h| == 0 ==> r == ""
  {
    if |h| == 0 then "" else h[1..]
  }

  /** The section ids probed, one per navigation item and in the same order. */
  function SectionIds(hrefs: seq<string>): (r: seq<string>)
    ensures |r| == |hrefs|
    ensures forall i :: 0 <= i < |hrefs| && |hrefs[i]| > 0 ==> hrefs[i] == [hrefs[i][0]] + r[i]
  {
    if hrefs == [] then [] else [SliceOne(hrefs[0])] + SectionIds(hrefs[1..])
  }

  /** The menu's sections are probed as "about", "skills", ..., "contact". */
  lemma NavSections()
    ensures SectionIds(NavHrefs) ==
      ["about", "skills", "projects", "experience", "education", "extras", "contact"]
  {
  }

  /** The section is on the page and the probe position lies in its box, whose
      lower edge is excluded. */
  predicate Hit(dom: map<string, Box>, section: string, position: real) {
    section in dom &&
    dom[section].offsetTop as real <= position &&
    position < (dom[section].offsetTop + dom[section].offsetHeight) as real
  }

  /** The first section at or after `i` that the position hits. */
  function FirstHitFrom(sections: seq<string>, dom: map<string, Box>, position: real, i: nat): (r: Option<nat>)
    requires i <= |sections|
    ensures r.Some? ==> i <= r.value < |sections| && Hit(dom, sections[r.value], position)
    ensures r.Some? ==> forall j :: i <= j < r.value ==> !Hit(dom, sections[j], position)
    ensures r.None? ==> forall j :: i <= j < |sections| ==> !Hit(dom, sections[j], position)
    decreases |sections| - i
  {
    if i == |sections| then None
    else if Hit(dom, sections[i], position) then Some(i)
    else FirstHitFrom(sections, dom, position, i + 1)
  }

  /** The section `handleScroll` selects, if any. */
  function ActiveAfterScroll(sections: seq<string>, dom: map<string, Box>, scrollY: real): (r: Option<string>)
    ensures r.Some? ==> r.value in sections && Hit(dom, r.value, scrollY + 100.0)
    ensures r.None? ==> forall j :: 0 <= j < |sections| ==> !Hit(dom, sections[j], scrollY + 100.0)
    ensures r.Some? ==> exists k :: (0 <= k < |sections| && r.value == sections[k] &&
                                     Hit(dom, sections[k], scrollY + 100.0) &&
                                     forall j :: 0 <= j < k ==> !Hit(dom, sections[j], scrollY + 100.0))
  {
    match FirstHitFrom(sections, dom, scrollY + 100.0, 0)
    case None => None
    case Some(k) => Some(sections[k])
  }

  /** When two sections overlap the position, the one earlier in the menu wins. */
  lemma EarlierSectionWins(sections: seq<string>, dom: map<string, Box>, scrollY: real, j: nat, k: nat)
    requires j < k < |sections|
    requires Hit(dom, sections[j], scrollY + 100.0) && Hit(dom, sections[k], scrollY + 100.0)
    ensures FirstHitFrom(sections, dom, scrollY + 100.0, 0).Some?
    ensures FirstHitFrom(sections, dom, scrollY + 100.0, 0).value <= j
    ensures FirstHitFrom(sections, dom, scrollY + 100.0, 0).value != k
  {
  }

  class HeaderBar {
    var mobileMenuOpen: bool
    var activeSection: string

    /** The menu starts closed with "about" highlighted. */
    constructor ()
      ensures !mobileMenuOpen && activeSection == "about"
    {
      mobileMenuOpen := false;
      activeSection := "about";
    }

    /** `handleScroll`: walks the sections in menu order, skips those missing from
        the page (`dom` has no box for them), and takes the first whose box holds
        `scrollY + 100`; with no such section the highlight stays. */
    method HandleScroll(scrollY: real, dom: map<string, Box>)
      modifies this
      ensures activeSection == match ActiveAfterScroll(SectionIds(NavHrefs), dom, scrollY)
                               case Some(s) => s
                               case None => old(activeSection)
      ensures mobileMenuOpen == old(mobileMenuOpen)
    {
      var sections := SectionIds(NavHrefs);
      var scrollPosition := scrollY + 100.0;
      var i := 0;
      while i < |sections|
        invariant 0 <= i <= |sections|
        invariant FirstHitFrom(sections, dom, scrollPosition, 0) == FirstHitFrom(sections, dom, scrollPosition, i)
        invariant activeSection == old(activeSection) && mobileMenuOpen == old(mobileMenuOpen)
        decreases |sections| - i
      {
        var section := sections[i];
        if section in dom {
          var element := dom[section];
          if scrollPosition >= element.offsetTop as real &&
             scrollPosition < (element.offsetTop + element.offsetHeight) as real {
            activeSection := section;
            break;
          }
        }
        i := i + 1;
      }
    }

    /** The menu button. */
    method ToggleMenu()
      modifies this
      ensures mobileMenuOpen == !old(mobileMenuOpen) && activeSection == old(activeSection)
    {
      mobileMenuOpen := !mobileMenuOpen;
    }

    /** Clicking any item of the mobile menu closes it. */
    method NavItemClicked()
      modifies this
      ensures !mobileMenuOpen && activeSection == old(activeSection)
    {
      mobileMenuOpen := false;
    }
  }
}
