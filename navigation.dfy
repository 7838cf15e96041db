/**
 * Navigation behaviour driven by the scroll position (script.js, "Navbar Scroll Effect" and
 * "Active Navigation Link Highlighting"): which section counts as the current one, and
 * when the navigation bar takes its "scrolled" style.
 */
module Navigation {
  import opened Wrappers

  /** A `section[id]` element: its id and its offset from the top of the document. */
  datatype Section = Section(id: string, offsetTop: int)

  /** A `.nav-link` element: its `href` attribute, if any, and its `active` marker. */
  datatype NavLink = NavLink(href: Option<string>, active: bool)

  /** Sections count as reached 100 pixels before their top passes under the navigation bar. */
  const LOOKAHEAD := 100

  /** The navigation bar's scroll threshold, in pixels. */
  const SCROLLED_THRESHOLD := 50.0

  /** The navigation bar's height: 0 when there is no navigation bar. */
  function NavbarOffset(navbarHeight: Option<int>): (offset: int)
    ensures navbarHeight.None? ==> offset == 0
    ensures navbarHeight.Some? ==> offset == navbarHeight.value
  {
    if navbarHeight.Some? then navbarHeight.value else 0
  }

  /**
   * A section is reached once its top lies no further below the scroll position than the
   * navigation bar's height plus the look-ahead.
   */
  predicate Reached(s: Section, scrollY: real, navbarOffset: int): (reached: bool)
    ensures reached <==> (s.offsetTop as real) - scrollY <= (navbarOffset + LOOKAHEAD) as real
  {
    scrollY >= (s.offsetTop - navbarOffset - LOOKAHEAD) as real
  }

  /** The index of the last reached section in document order, or -1 when none is reached. */
  function LastReached(sections: seq<Section>, scrollY: real, navbarOffset: int): (k: int)
    ensures -1 <= k < |sections|
    ensures k >= 0 ==> Reached(sections[k], scrollY, navbarOffset)
    ensures forall j :: k < j < |sections| ==> !Reached(sections[j], scrollY, navbarOffset)
  {
    if |sections| == 0 then -1
    else if Reached(sections[|sections| - 1], scrollY, navbarOffset) then |sections| - 1
    else LastReached(sections[..|sections| - 1], scrollY, navbarOffset)
  }

  /** The id of the current section: that of the last reached one, or "" when none is reached. */
  function CurrentId(sections: seq<Section>, scrollY: real, navbarOffset: int): (current: string)
    ensures (forall j :: 0 <= j < |sections| ==> !Reached(sections[j], scrollY, navbarOffset)) ==> current == ""
    ensures forall k ::
              (0 <= k < |sections| && Reached(sections[k], scrollY, navbarOffset)
               && (forall j :: k < j < |sections| ==> !Reached(sections[j], scrollY, navbarOffset)))
              ==> current == sections[k].id
  {
    var k := LastReached(sections, scrollY, navbarOffset);
    if k < 0 then "" else sections[k].id
  }

  /** The scan of `updateActiveLink`: walk the sections in order and keep the last one reached. */
  method CurrentSection(sections: seq<Section>, scrollY: real, navbarHeight: Option<int>)
    returns (current: string)
    ensures current == CurrentId(sections, scrollY, NavbarOffset(navbarHeight))
  {
    var offset := NavbarOffset(navbarHeight);
    current := "";
    for i := 0 to |sections|
      invariant current == CurrentId(sections[..i], scrollY, offset)
    {
      assert sections[..i + 1][..i] == sections[..i];
      if scrollY >= (sections[i].offsetTop - offset - LOOKAHEAD) as real {
        current := sections[i].id;
      }
    }
    assert sections[..|sections|] == sections;
  }

  /** Scrolling further down never moves the current section to an earlier one. */
  lemma ScrollMonotone(sections: seq<Section>, y1: real, y2: real, navbarOffset: int)
    requires y1 <= y2
    ensures LastReached(sections, y1, navbarOffset) <= LastReached(sections, y2, navbarOffset)
  {
  }

  /** The link marking: a link is active exactly when its href names the current section. */
  function LinkMarked(link: NavLink, current: string): (r: NavLink)
    ensures r.href == link.href
    ensures r.active <==> link.href == Some("#" + current)
  {
    link.(active := link.href == Some("#" + current))
  }

  /**
   * With no section reached the current id is "", so a link whose href is a bare "#" is the
   * one that becomes active.
   */
  lemma NoSectionMarksBareHash(sections: seq<Section>, scrollY: real, navbarOffset: int, link: NavLink)
    requires forall j :: 0 <= j < |sections| ==> !Reached(sections[j], scrollY, navbarOffset)
    requires link.href == Some("#")
    ensures LinkMarked(link, CurrentId(sections, scrollY, navbarOffset)).active
  {
    assert "#" + "" == "#";
  }
}
