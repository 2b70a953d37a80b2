/** `setActiveNavLink`: which page section counts as current, and which navigation links light up. */
module NavLinks {
  import opened Wrappers
  import opened Marking

  /** A `.page-section` element: its `id` attribute and its `offsetTop`. */
  datatype Section = Section(id: string, offsetTop: int)

  /** A section becomes current this many pixels before its top reaches the sticky navigation bar. */
  const Lookahead := 100

  /** `window.pageYOffset >= section.offsetTop - navHeight - 100`. */
  predicate Reached(s: Section, pageYOffset: real, navHeight: int)
  {
    pageYOffset >= (s.offsetTop - navHeight - Lookahead) as real
  }

  /** The position of the last section, in document order, that the page has scrolled to. */
  function LastReached(sections: seq<Section>, pageYOffset: real, navHeight: int): (r: Option<nat>)
    ensures r.Some? ==> r.value < |sections| && Reached(sections[r.value], pageYOffset, navHeight)
    ensures r.Some? ==> forall j :: r.value < j < |sections| ==> !Reached(sections[j], pageYOffset, navHeight)
    ensures r.None? ==> forall j :: 0 <= j < |sections| ==> !Reached(sections[j], pageYOffset, navHeight)
  {
    if sections == [] then None
    else if Reached(sections[|sections| - 1], pageYOffset, navHeight) then Some(|sections| - 1)
    else LastReached(sections[..|sections| - 1], pageYOffset, navHeight)
  }

  /** The id of the current section, or the empty string when no section has been reached. */
  function CurrentId(sections: seq<Section>, pageYOffset: real, navHeight: int): (id: string)
    ensures (forall j :: 0 <= j < |sections| ==> !Reached(sections[j], pageYOffset, navHeight)) ==> id == ""
    ensures id != "" ==> exists k :: 0 <= k < |sections| && sections[k].id == id && Reached(sections[k], pageYOffset, navHeight)
  {
    match LastReached(sections, pageYOffset, navHeight)
    case None => ""
    case Some(k) => sections[k].id
  }

  /**
   * `setActiveNavLink`: walks the sections in document order keeping the id of the last one reached,
   * then marks active exactly the links whose `href` is `#` followed by that id.
   */
  method SetActiveNavLink(sections: seq<Section>, hrefs: seq<string>, pageYOffset: real, navHeight: int)
    returns (current: string, active: seq<bool>)
    ensures current == CurrentId(sections, pageYOffset, navHeight)
    ensures |active| == |hrefs|
    ensures forall j :: 0 <= j < |hrefs| ==> (active[j] <==> hrefs[j] == "#" + current)
  {
    current := "";
    var i := 0;
    while i < |sections|
      invariant 0 <= i <= |sections|
      invariant current == CurrentId(sections[..i], pageYOffset, navHeight)
    {
      assert sections[..i + 1][..i] == sections[..i];
      if Reached(sections[i], pageYOffset, navHeight) {
        current := sections[i].id;
      }
      i := i + 1;
    }
    assert sections[..i] == sections;
    active := MarkActive(hrefs, "#" + current);
  }
}
