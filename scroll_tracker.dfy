/**
 * The active-section tracker shared by the top navigation bar and the side
 * dot navigation of the portfolio page (app/page.tsx, Navigation and
 * SideNavigation).
 *
 * On every scroll event the tracker computes a probe 100 units below the
 * vertical scroll offset and scans its ordered list of section ids. The first
 * section whose element exists and whose box [offsetTop, offsetTop +
 * offsetHeight) contains the probe becomes the active section; if none does,
 * the active section keeps its previous value.
 */
module ScrollTracker {
  import opened Wrappers

  /** Lookahead added to the scroll offset, compensating for the fixed top bar. */
  const Lookahead: int := 100

  /** The section every tracker starts with. */
  const InitialSection: string := "about"

  /** The ids scanned by the top navigation bar. */
  const NavigationSections: seq<string> := ["about", "skills", "projects", "contact"]

  /** The ids scanned by the side dot navigation (it also lists the personal projects). */
  const SideNavigationSections: seq<string> :=
    ["about", "skills", "projects", "personal-projects", "contact"]

  /** Layout of a rendered section element. */
  datatype Box = Box(offsetTop: int, offsetHeight: int)

  /**
   * The page as the scan sees it: looking an id up by element id either finds
   * an element with its layout box or finds nothing (the id is not a key).
   */
  type Document = map<string, Box>

  /** One scroll event: the vertical scroll offset and the layout at that moment. */
  datatype Scroll = Scroll(scrollY: int, doc: Document)

  function Probe(scrollY: int): int
  {
    scrollY + Lookahead
  }

  /** The lower bound is inclusive, the upper bound exclusive. */
  predicate Contains(b: Box, probe: int)
  {
    b.offsetTop <= probe < b.offsetTop + b.offsetHeight
  }

  /** Section `id` is rendered and its box contains the probe. */
  predicate Hit(doc: Document, id: string, probe: int)
  {
    id in doc && Contains(doc[id], probe)
  }

  predicate Distinct(ids: seq<string>)
  {
    forall i, j :: 0 <= i < j < |ids| ==> ids[i] != ids[j]
  }

  /**
   * The index of the first section hit by the probe: the scan stops at the
   * first match, so the result is the least matching index.
   */
  function FirstHit(ids: seq<string>, doc: Document, probe: int): (r: Option<nat>)
    ensures r.Some? ==> r.value < |ids| && Hit(doc, ids[r.value], probe)
    ensures r.Some? ==> forall j :: 0 <= j < r.value ==> !Hit(doc, ids[j], probe)
    ensures r.None? <==> forall j :: 0 <= j < |ids| ==> !Hit(doc, ids[j], probe)
  {
    if ids == [] then None
    else if Hit(doc, ids[0], probe) then Some(0)
    else
      match FirstHit(ids[1..], doc, probe)
      case None =>
        assert forall j :: 1 <= j < |ids| ==> ids[j] == ids[1..][j - 1];
        None
      case Some(k) =>
        assert forall j :: 1 <= j <= k ==> ids[j] == ids[1..][j - 1];
        Some(k + 1)
  }

  /**
   * The active section after one scroll event: the first section hit by the
   * probe, or the previous active section when no section is hit.
   */
  function NextActive(ids: seq<string>, doc: Document, scrollY: int, active: string): (r: string)
    ensures r == active || r in ids
    ensures (forall j :: 0 <= j < |ids| ==> !Hit(doc, ids[j], Probe(scrollY))) ==> r == active
    ensures r != active ==> Hit(doc, r, Probe(scrollY))
  {
    match FirstHit(ids, doc, Probe(scrollY))
    case None => active
    case Some(i) => ids[i]
  }

  /** The active section after a whole sequence of scroll events. */
  function ActiveAfter(ids: seq<string>, scrolls: seq<Scroll>, active: string): string
    decreases |scrolls|
  {
    if scrolls == [] then active
    else ActiveAfter(ids, scrolls[1..], NextActive(ids, scrolls[0].doc, scrolls[0].scrollY, active))
  }

  /** The ids whose element is rendered, in list order. */
  function Present(ids: seq<string>, doc: Document): (r: seq<string>)
    ensures forall id :: id in r ==> id in ids && id in doc
  {
    if ids == [] then []
    else if ids[0] in doc then [ids[0]] + Present(ids[1..], doc)
    else Present(ids[1..], doc)
  }

  /**
   * The scan as the page runs it: a loop over the ids that skips missing
   * elements and stops at the first section containing the probe.
   */
  method ScanSections(ids: seq<string>, doc: Document, scrollY: int, active: string)
    returns (next: string)
    ensures next == NextActive(ids, doc, scrollY, active)
  {
    var scrollPosition := Probe(scrollY);
    next := active;
    var i := 0;
    while i < |ids|
      invariant 0 <= i <= |ids|
      invariant next == active
      invariant forall j :: 0 <= j < i ==> !Hit(doc, ids[j], scrollPosition)
    {
      var section := ids[i];
      if section in doc {
        var box := doc[section];
        if scrollPosition >= box.offsetTop && scrollPosition < box.offsetTop + box.offsetHeight {
          next := section;
          break;
        }
      }
      i := i + 1;
    }
  }

  /** If section i is the first one hit by the probe, it becomes active. */
  lemma SelectsFirstHit(ids: seq<string>, doc: Document, scrollY: int, active: string, i: nat)
    requires i < |ids| && Hit(doc, ids[i], Probe(scrollY))
    requires forall j :: 0 <= j < i ==> !Hit(doc, ids[j], Probe(scrollY))
    ensures NextActive(ids, doc, scrollY, active) == ids[i]
  {
    var r := FirstHit(ids, doc, Probe(scrollY));
    assert r.Some?;
    assert r.value == i;
  }

  /**
   * When two sections' boxes overlap at the probe, the one earlier in the
   * list wins: the later one is not selected.
   */
  lemma EarlierSectionWins(ids: seq<string>, doc: Document, scrollY: int, active: string, i: nat, k: nat)
    requires Distinct(ids)
    requires i < k < |ids|
    requires Hit(doc, ids[i], Probe(scrollY)) && Hit(doc, ids[k], Probe(scrollY))
    ensures NextActive(ids, doc, scrollY, active) != ids[k]
  {
    var r := FirstHit(ids, doc, Probe(scrollY));
    assert r.Some? && r.value <= i;
  }

  /** Both components list each section once, so the overlap rule applies to them. */
  lemma SectionListsDistinct()
    ensures Distinct(NavigationSections) && Distinct(SideNavigationSections)
  {
  }

  /** A section whose element is missing is never the one the scan stops at. */
  lemma MissingNeverSelected(ids: seq<string>, doc: Document, probe: int, i: nat)
    requires i < |ids| && ids[i] !in doc
    ensures FirstHit(ids, doc, probe) != Some(i)
  {
  }

  /** Skipping the missing elements: scanning only the rendered ids gives the same result. */
  lemma {:induction false} SkipMissing(ids: seq<string>, doc: Document, scrollY: int, active: string)
    ensures NextActive(Present(ids, doc), doc, scrollY, active) == NextActive(ids, doc, scrollY, active)
    decreases |ids|
  {
    if ids != [] {
      SkipMissing(ids[1..], doc, scrollY, active);
      var p := Probe(scrollY);
      if !Hit(doc, ids[0], p) {
        ScanAdvances(ids, doc, scrollY, active);
        if ids[0] in doc {
          var rest := Present(ids[1..], doc);
          assert Present(ids, doc) == [ids[0]] + rest;
          assert ([ids[0]] + rest)[1..] == rest;
          ScanAdvances([ids[0]] + rest, doc, scrollY, active);
        }
      }
    }
  }

  /** A section not hit by the probe at the head of the list does not affect the scan. */
  lemma ScanAdvances(ids: seq<string>, doc: Document, scrollY: int, active: string)
    requires ids != [] && !Hit(doc, ids[0], Probe(scrollY))
    ensures NextActive(ids, doc, scrollY, active) == NextActive(ids[1..], doc, scrollY, active)
  {
    var p := Probe(scrollY);
    match FirstHit(ids[1..], doc, p)
    case None =>
    case Some(k) =>
      assert FirstHit(ids, doc, p) == Some(k + 1);
  }

  /** Handling the same scroll event twice changes nothing the second time. */
  lemma HandleScrollIdempotent(ids: seq<string>, doc: Document, scrollY: int, active: string)
    ensures NextActive(ids, doc, scrollY, NextActive(ids, doc, scrollY, active))
         == NextActive(ids, doc, scrollY, active)
  {
  }

  /** Whatever scroll events arrive, the active section stays one of the tracker's own ids. */
  lemma {:induction false} ActiveStaysListed(ids: seq<string>, scrolls: seq<Scroll>, active: string)
    requires active in ids
    ensures ActiveAfter(ids, scrolls, active) in ids
    decreases |scrolls|
  {
    if scrolls != [] {
      ActiveStaysListed(ids, scrolls[1..], NextActive(ids, scrolls[0].doc, scrolls[0].scrollY, active));
    }
  }

  /** The top navigation bar starts at "about" and can never show the personal projects as active. */
  lemma NavigationNeverPersonalProjects(scrolls: seq<Scroll>)
    ensures ActiveAfter(NavigationSections, scrolls, InitialSection) != "personal-projects"
  {
    assert InitialSection == NavigationSections[0];
    ActiveStaysListed(NavigationSections, scrolls, InitialSection);
    assert "personal-projects" != NavigationSections[0];
    assert "personal-projects" != NavigationSections[1];
    assert "personal-projects" != NavigationSections[2];
    assert "personal-projects" != NavigationSections[3];
  }

  /**
   * Sections about at [0, 800) and skills at [800, 1700); scrolled to 750 the
   * probe is 850, which lies in skills only.
   */
  lemma ProbeScenario()
    ensures NextActive(["about", "skills"], map["about" := Box(0, 800), "skills" := Box(800, 900)], 750, "about")
         == "skills"
  {
    SelectsFirstHit(["about", "skills"], map["about" := Box(0, 800), "skills" := Box(800, 900)], 750, "about", 1);
  }

  /**
   * One navigation component's state: the fixed list of section ids it scans
   * and the id it currently highlights.
   */
  class SectionTracker {
    const sections: seq<string>
    var activeSection: string

    ghost predicate Valid()
      reads this
    {
      activeSection in sections
    }

    /** The top navigation bar. */
    constructor Navigation()
      ensures Valid()
      ensures sections == NavigationSections && activeSection == InitialSection
    {
      sections := NavigationSections;
      activeSection := InitialSection;
    }

    /** The side dot navigation. */
    constructor SideNavigation()
      ensures Valid()
      ensures sections == SideNavigationSections && activeSection == InitialSection
    {
      sections := SideNavigationSections;
      activeSection := InitialSection;
    }

    /** The scroll listener. */
    method HandleScroll(scrollY: int, doc: Document)
      requires Valid()
      modifies this
      ensures Valid()
      ensures activeSection == NextActive(sections, doc, scrollY, old(activeSection))
    {
      var next := ScanSections(sections, doc, scrollY, activeSection);
      activeSection := next;
    }
  }
}
