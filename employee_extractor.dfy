/**
 * The employee extractor (src/extractors/employee_extractor.py): choose the
 * sections whose heading speaks of employees, people or a team (else the
 * whole document), walk their `<a href>` links to `/in/` profiles in order,
 * skip links already seen by resolved URL or without text, guess a position
 * from nearby text, and stop as soon as the cap is reached.
 *
 * `urljoin` is a parameter: nothing proved here depends on what it computes.
 */
module EmployeeExtractor {
  import opened Wrappers
  import opened Seqs
  import opened Strings
  import opened Dom

  /** One extracted employee, as the dict the source appends. */
  datatype EmployeeEntry = EmployeeEntry(name: string, position: string, profileUrl: string)

  /** A node to search for links, with its parent (None for the document itself). */
  datatype Container = Container(node: Node, above: Option<Node>)

  const DefaultBaseUrl: string := "https://www.linkedin.com"
  const DefaultMaxEmployees: int := 4

  // ------------------------------------------------------------ _infer_position

  const PositionTags: set<string> := {"span", "div"}

  /** The length test `5 < len(txt) < 120`. */
  predicate IsPositionText(t: string)
  {
    5 < |t| < 120
  }

  /** The text a span or div child offers as a position, when it passes the length test. */
  function PositionOf(n: Node): (r: Option<string>)
    ensures r.Some? ==> IsPositionText(r.value)
  {
    if IsTag(n, PositionTags) && IsPositionText(GetText(n, " ")) then Some(GetText(n, " ")) else None
  }

  /** The children of an element; a text has none. */
  function Children(n: Node): seq<Node>
  {
    if n.Element? then n.children else []
  }

  /**
   * `_infer_position`: the first direct span/div child of the link's parent
   * (other than the link) with position text, else the first such child of
   * the grandparent, else "".
   */
  function InferPosition(link: Occurrence): (r: string)
    ensures r == "" || IsPositionText(r)
    ensures r == "" <==>
              (forall k :: 0 <= k < |Children(link.parent)| && k != link.index ==> PositionOf(Children(link.parent)[k]).None?) &&
              (link.grandparent.Some? ==>
                 forall k :: 0 <= k < |Children(link.grandparent.value)| ==> PositionOf(Children(link.grandparent.value)[k]).None?)
  {
    match FirstSomeSkip(Children(link.parent), PositionOf, link.index, 0)
    case Some(t) => t
    case None =>
      if link.grandparent.None? then ""
      else
        match FirstSomeSkip(Children(link.grandparent.value), PositionOf, -1, 0)
        case Some(t) => t
        case None => ""
  }

  /** `_infer_position` as the source runs it: the sibling loop, then the grandparent's children. */
  method InferPositionOf(link: Occurrence) returns (position: string)
    ensures position == InferPosition(link)
  {
    var siblings := Children(link.parent);
    position := FirstPositionFrom(siblings, link.index);
    if position != "" || link.grandparent.None? {
      return;
    }
    position := FirstPositionFrom(Children(link.grandparent.value), -1);
  }

  /** One `find_all(["span", "div"], recursive=False)` loop: the first child, other than `skip`, with position text. */
  method FirstPositionFrom(children: seq<Node>, skip: int) returns (position: string)
    ensures position == (match FirstSomeSkip(children, PositionOf, skip, 0) case Some(t) => t case None => "")
  {
    for i := 0 to |children|
      invariant FirstSomeSkip(children, PositionOf, skip, 0) == FirstSomeSkip(children, PositionOf, skip, i)
    {
      if i == skip {
        continue;
      }
      var found := ReadPosition(children[i]);
      if found.Some? {
        return found.value;
      }
    }
    return "";
  }

  /** The loop body: a span or div child's text, when it is a position. */
  method ReadPosition(n: Node) returns (found: Option<string>)
    ensures found == PositionOf(n)
  {
    found := None;
    if !IsTag(n, PositionTags) {
      return;
    }
    var txt := GetText(n, " ");
    if txt != "" && 5 < |txt| < 120 {
      found := Some(txt);
    }
  }

  /** A qualifying sibling wins over anything higher up: the first one in order is taken. */
  lemma {:induction false} InferPositionFromParent(link: Occurrence, k: nat)
    requires k < |Children(link.parent)| && k != link.index && PositionOf(Children(link.parent)[k]).Some?
    requires forall j :: 0 <= j < k && j != link.index ==> PositionOf(Children(link.parent)[j]).None?
    ensures InferPosition(link) == GetText(Children(link.parent)[k], " ")
  {
    FirstSomeSkipIs(Children(link.parent), PositionOf, link.index, 0, k);
  }

  /** With no qualifying sibling, the first qualifying child of the grandparent is taken. */
  lemma {:induction false} InferPositionFromGrandparent(link: Occurrence, k: nat)
    requires forall j :: 0 <= j < |Children(link.parent)| && j != link.index ==> PositionOf(Children(link.parent)[j]).None?
    requires link.grandparent.Some?
    requires k < |Children(link.grandparent.value)| && PositionOf(Children(link.grandparent.value)[k]).Some?
    requires forall j :: 0 <= j < k ==> PositionOf(Children(link.grandparent.value)[j]).None?
    ensures InferPosition(link) == GetText(Children(link.grandparent.value)[k], " ")
  {
    FirstSomeSkipIs(Children(link.grandparent.value), PositionOf, -1, 0, k);
  }

  // ------------------------------------------------------ candidate containers

  const ContainerTags: set<string> := {"section", "div"}
  const HeadingTags: set<string> := {"h2", "h3", "h4"}

  predicate IsContainerTag(n: Node)
  {
    IsTag(n, ContainerTags)
  }

  /** `find(["h2", "h3", "h4"], string=True)`. */
  predicate IsHeading(n: Node)
  {
    IsTag(n, HeadingTags) && HasString(n)
  }

  predicate MentionsPeople(t: string)
  {
    Contains(t, "employees") || Contains(t, "people") || Contains(t, "team")
  }

  /** The first heading under `o` mentions employees, people or a team. */
  predicate HasPeopleHeading(o: Occurrence)
  {
    var h := Find(o.node, Some(o.parent), IsHeading);
    h.Some? && MentionsPeople(Lower(GetText(h.value.node, " ")))
  }

  function CandidateOf(o: Occurrence): Option<Container>
  {
    if HasPeopleHeading(o) then Some(Container(o.node, Some(o.parent))) else None
  }

  /** The candidate sections, in document order. */
  function CandidateSections(doc: Node): seq<Container>
  {
    FilterMap(FindAll(doc, None, IsContainerTag), CandidateOf)
  }

  /** The containers searched: the candidate sections, or the whole document when there are none. */
  function Containers(doc: Node): seq<Container>
  {
    var cands := CandidateSections(doc);
    if cands == [] then [Container(doc, None)] else cands
  }

  /** The whole document is searched exactly when no section or div has a people heading. */
  lemma {:induction false} ContainersFallback(doc: Node)
    ensures CandidateSections(doc) == [] <==>
              forall i :: 0 <= i < |FindAll(doc, None, IsContainerTag)| ==> !HasPeopleHeading(FindAll(doc, None, IsContainerTag)[i])
    ensures CandidateSections(doc) == [] ==> Containers(doc) == [Container(doc, None)]
    ensures CandidateSections(doc) != [] ==> Containers(doc) == CandidateSections(doc)
  {
    FilterMapEmpty(FindAll(doc, None, IsContainerTag), CandidateOf);
  }

  /** Every candidate is a section or div of the document whose first heading mentions people. */
  lemma {:induction false} CandidateChosen(doc: Node, k: nat)
    requires k < |CandidateSections(doc)|
    ensures exists i :: 0 <= i < |FindAll(doc, None, IsContainerTag)| &&
              var o := FindAll(doc, None, IsContainerTag)[i];
              IsTag(o.node, {"section", "div"}) && HasPeopleHeading(o) && CandidateSections(doc)[k] == Container(o.node, Some(o.parent))
  {
    FilterMapSound(FindAll(doc, None, IsContainerTag), CandidateOf, k);
  }

  /** The candidate sections, or the whole document when there are none. */
  method FindContainers(doc: Node) returns (candidates: seq<Container>)
    ensures candidates == Containers(doc)
  {
    var sections := FindAll(doc, None, IsContainerTag);
    candidates := CollectCandidates(sections);
    if candidates == [] {
      candidates := [Container(doc, None)];
    }
  }

  /** The candidate-section loop. */
  method CollectCandidates(sections: seq<Occurrence>) returns (candidates: seq<Container>)
    ensures candidates == FilterMap(sections, CandidateOf)
  {
    candidates := [];
    for i := 0 to |sections|
      invariant candidates == FilterMap(sections[..i], CandidateOf)
    {
      FilterMapNext(sections, CandidateOf, i);
      var section := sections[i];
      var heading := Find(section.node, Some(section.parent), IsHeading);
      if heading.None? {
        continue;
      }
      var headingText := Lower(GetText(heading.value.node, " "));
      if MentionsPeople(headingText) {
        candidates := candidates + [Container(section.node, Some(section.parent))];
      }
    }
    assert sections[..|sections|] == sections;
  }

  // -------------------------------------------------------------- link scan

  /** `find_all("a", href=True)`. */
  predicate IsLink(n: Node)
  {
    IsTag(n, {"a"}) && HasAttr(n, "href")
  }

  function LinksIn(c: Container): seq<Occurrence>
  {
    FindAll(c.node, c.above, IsLink)
  }

  /** The links the scan visits, container by container, each in document order. */
  function AllLinks(doc: Node): seq<Occurrence>
  {
    FlatMap(Containers(doc), LinksIn)
  }

  /** The profile URLs of the entries so far (`seen_urls`). */
  function UrlSet(es: seq<EmployeeEntry>): set<string>
    decreases |es|
  {
    if es == [] then {} else UrlSet(es[..|es| - 1]) + {es[|es| - 1].profileUrl}
  }

  lemma {:induction false} UrlSetHas(es: seq<EmployeeEntry>, k: nat)
    requires k < |es|
    ensures es[k].profileUrl in UrlSet(es)
    decreases |es|
  {
    if k < |es| - 1 {
      UrlSetHas(es[..|es| - 1], k);
    }
  }

  /** A link the scan can take: its href contains "/in/" and its text is non-empty. */
  predicate Qualifies(a: Occurrence)
  {
    HasAttr(a.node, "href") && Contains(a.node.attrs["href"], "/in/") && GetText(a.node, " ") != ""
  }

  /** What the scan makes of link `a` given the entries found before it. */
  function Accept(prev: seq<EmployeeEntry>, a: Occurrence, base: string, urljoin: (string, string) -> string): (r: Option<EmployeeEntry>)
    ensures r.Some? ==>
              && HasAttr(a.node, "href") && Contains(a.node.attrs["href"], "/in/")
              && r.value.profileUrl == urljoin(base, a.node.attrs["href"]) && r.value.profileUrl !in UrlSet(prev)
              && r.value.name == GetText(a.node, " ") && r.value.name != ""
              && r.value.position == InferPosition(a)
    ensures Qualifies(a) && urljoin(base, a.node.attrs["href"]) !in UrlSet(prev) ==>
              r == Some(EmployeeEntry(GetText(a.node, " "), InferPosition(a), urljoin(base, a.node.attrs["href"])))
  {
    if !HasAttr(a.node, "href") then None
    else
      var href := a.node.attrs["href"];
      if !Contains(href, "/in/") then None
      else
        var url := urljoin(base, href);
        if url in UrlSet(prev) then None
        else
          var name := GetText(a.node, " ");
          if name == "" then None
          else Some(EmployeeEntry(name, InferPosition(a), url))
  }

  /** The scan's step, as a function value. */
  function Step(base: string, urljoin: (string, string) -> string): (seq<EmployeeEntry>, Occurrence) -> Option<EmployeeEntry>
  {
    (prev, a) => Accept(prev, a, base, urljoin)
  }

  /** The entries an uncapped scan of `links` collects. */
  function Scan(links: seq<Occurrence>, base: string, urljoin: (string, string) -> string): (r: seq<EmployeeEntry>)
    ensures |r| <= |links|
  {
    Accumulate(links, Step(base, urljoin))
  }

  /** The check runs after each append, so a cap below one still lets one entry through. */
  function Cap(maxEmployees: int): (r: nat)
    ensures r >= 1 && (maxEmployees >= 1 ==> r == maxEmployees)
  {
    if maxEmployees >= 1 then maxEmployees else 1
  }

  /** What `extract_employees_from_soup` returns. */
  function Employees(doc: Node, base: string, maxEmployees: int, urljoin: (string, string) -> string): seq<EmployeeEntry>
  {
    Take(Scan(AllLinks(doc), base, urljoin), Cap(maxEmployees))
  }

  /** No two entries of the scan share a profile URL. */
  lemma {:induction false} ScanDistinct(links: seq<Occurrence>, base: string, urljoin: (string, string) -> string)
    ensures forall i, j :: 0 <= i < j < |Scan(links, base, urljoin)| ==>
              Scan(links, base, urljoin)[i].profileUrl != Scan(links, base, urljoin)[j].profileUrl
  {
    var step := Step(base, urljoin);
    forall prev: seq<EmployeeEntry>, a: Occurrence, j | step(prev, a).Some? && 0 <= j < |prev|
      ensures prev[j].profileUrl != step(prev, a).value.profileUrl
    {
      UrlSetHas(prev, j);
    }
    AccumulateDistinct(links, step, (e: EmployeeEntry) => e.profileUrl);
  }

  /** The returned profile URLs are pairwise distinct. */
  lemma {:induction false} EmployeesDistinct(doc: Node, base: string, maxEmployees: int, urljoin: (string, string) -> string, i: nat, j: nat)
    requires i < j < |Employees(doc, base, maxEmployees, urljoin)|
    ensures Employees(doc, base, maxEmployees, urljoin)[i].profileUrl != Employees(doc, base, maxEmployees, urljoin)[j].profileUrl
  {
    var all := Scan(AllLinks(doc), base, urljoin);
    ScanDistinct(AllLinks(doc), base, urljoin);
    assert Employees(doc, base, maxEmployees, urljoin) <= all;
    assert all[i].profileUrl != all[j].profileUrl;
  }

  /**
   * At most `maxEmployees` entries when it is at least one, and at most one
   * otherwise; exactly that many when the scan finds at least that many.
   */
  lemma {:induction false} EmployeesBounded(doc: Node, base: string, maxEmployees: int, urljoin: (string, string) -> string)
    ensures |Employees(doc, base, maxEmployees, urljoin)| <= if maxEmployees >= 1 then maxEmployees else 1
    ensures var n := |Scan(AllLinks(doc), base, urljoin)|;
            |Employees(doc, base, maxEmployees, urljoin)| == if n < Cap(maxEmployees) then n else Cap(maxEmployees)
  {
  }

  lemma {:induction false} UrlSetMember(es: seq<EmployeeEntry>, u: string)
    requires u in UrlSet(es)
    ensures exists k :: 0 <= k < |es| && es[k].profileUrl == u
    decreases |es|
  {
    var m := |es| - 1;
    if u != es[m].profileUrl {
      UrlSetMember(es[..m], u);
      var k :| 0 <= k < m && es[..m][k].profileUrl == u;
      assert es[k] == es[..m][k];
    }
  }

  /** After one step over a qualifying link, its resolved URL is among the entries' URLs. */
  lemma {:induction false} AcceptRecords(prev: seq<EmployeeEntry>, a: Occurrence, base: string, urljoin: (string, string) -> string)
    requires Qualifies(a)
    ensures urljoin(base, a.node.attrs["href"]) in UrlSet(prev + AsSeq(Accept(prev, a, base, urljoin)))
  {
    var r := Accept(prev, a, base, urljoin);
    if r.None? {
      assert prev + AsSeq(r) == prev;
    } else {
      UrlSetAppend(prev, r.value);
    }
  }

  /** Once the scan has passed a qualifying link, its resolved URL is among the entries' URLs. */
  lemma {:induction false} ScanSeesQualifying(links: seq<Occurrence>, base: string, urljoin: (string, string) -> string, i: nat)
    requires i < |links| && Qualifies(links[i])
    ensures urljoin(base, links[i].node.attrs["href"]) in UrlSet(Scan(links[..i + 1], base, urljoin))
  {
    assert links[..i + 1] == links[..i] + [links[i]];
    AccumulateStep(links[..i], links[i], Step(base, urljoin));
    AcceptRecords(Scan(links[..i], base, urljoin), links[i], base, urljoin);
  }

  /**
   * Every qualifying link has an entry with its resolved URL in the
   * uncapped scan: repeated links collapse to one entry, never to none.
   */
  lemma {:induction false} ScanCovers(links: seq<Occurrence>, base: string, urljoin: (string, string) -> string, i: nat)
    requires i < |links| && Qualifies(links[i])
    ensures exists k :: 0 <= k < |Scan(links, base, urljoin)| &&
              Scan(links, base, urljoin)[k].profileUrl == urljoin(base, links[i].node.attrs["href"])
  {
    var head := Scan(links[..i + 1], base, urljoin);
    ScanSeesQualifying(links, base, urljoin, i);
    UrlSetMember(head, urljoin(base, links[i].node.attrs["href"]));
    AccumulatePrefix(links, Step(base, urljoin), i + 1);
    var k :| 0 <= k < |head| && head[k].profileUrl == urljoin(base, links[i].node.attrs["href"]);
    assert Scan(links, base, urljoin)[k] == head[k];
  }

  /**
   * Below the cap nothing is lost: every qualifying link of the page has
   * exactly one entry with its resolved URL.
   */
  lemma {:induction false} EmployeesComplete(doc: Node, base: string, maxEmployees: int, urljoin: (string, string) -> string, i: nat)
    requires i < |AllLinks(doc)| && Qualifies(AllLinks(doc)[i])
    requires |Employees(doc, base, maxEmployees, urljoin)| < Cap(maxEmployees)
    ensures var es := Employees(doc, base, maxEmployees, urljoin);
            var url := urljoin(base, AllLinks(doc)[i].node.attrs["href"]);
            (exists k :: 0 <= k < |es| && es[k].profileUrl == url) &&
            forall k, j :: 0 <= k < j < |es| && es[k].profileUrl == url ==> es[j].profileUrl != url
  {
    ScanCovers(AllLinks(doc), base, urljoin, i);
    ScanDistinct(AllLinks(doc), base, urljoin);
  }

  /**
   * Every entry comes from a visited `<a href>` link whose href contains
   * "/in/" and whose non-empty text is the name; the URL is the resolved href
   * and the position is "" or a text of 6 to 119 characters.
   */
  lemma {:induction false} EmployeeFromLink(doc: Node, base: string, maxEmployees: int, urljoin: (string, string) -> string, k: nat)
    requires k < |Employees(doc, base, maxEmployees, urljoin)|
    ensures var e := Employees(doc, base, maxEmployees, urljoin)[k];
            exists i :: 0 <= i < |AllLinks(doc)| &&
              var a := AllLinks(doc)[i];
              && HasAttr(a.node, "href") && Contains(a.node.attrs["href"], "/in/")
              && e.name == GetText(a.node, " ") && e.name != ""
              && e.profileUrl == urljoin(base, a.node.attrs["href"])
              && e.position == InferPosition(a)
              && (e.position == "" || 5 < |e.position| < 120)
  {
    AccumulateOrigin(AllLinks(doc), Step(base, urljoin), k);
  }

  /** `extract_employees_from_soup`. */
  method ExtractEmployeesFromSoup(doc: Node, baseUrl: string, maxEmployees: int, urljoin: (string, string) -> string)
    returns (employees: seq<EmployeeEntry>)
    ensures employees == Employees(doc, baseUrl, maxEmployees, urljoin)
  {
    var containers := FindContainers(doc);
    ghost var visited: seq<Occurrence> := [];
    var seen: set<string> := {};
    employees := [];
    for ci := 0 to |containers|
      invariant visited == FlatMap(containers[..ci], LinksIn)
      invariant employees == Scan(visited, baseUrl, urljoin)
      invariant seen == UrlSet(employees)
      invariant |employees| < Cap(maxEmployees)
    {
      var links := FindAll(containers[ci].node, containers[ci].above, IsLink);
      var capped;
      employees, seen, capped := ScanLinks(links, visited, employees, seen, baseUrl, maxEmployees, urljoin);
      if capped {
        ghost var n :| 0 < n <= |links| && employees == Scan(visited + links[..n], baseUrl, urljoin) && |employees| == Cap(maxEmployees);
        EmployeesCapped(doc, containers, ci, visited, links, n, baseUrl, maxEmployees, urljoin);
        return;
      }
      FlatMapStep(containers, ci);
      visited := visited + links;
    }
    assert containers[..|containers|] == containers;
  }

  /**
   * The inner loop of `extract_employees_from_soup` over the links of one
   * container; `capped` reports the early return at the cap.
   */
  method ScanLinks(links: seq<Occurrence>, ghost visited: seq<Occurrence>, employees0: seq<EmployeeEntry>, seen0: set<string>,
                   baseUrl: string, maxEmployees: int, urljoin: (string, string) -> string)
    returns (employees: seq<EmployeeEntry>, seen: set<string>, capped: bool)
    requires forall k :: 0 <= k < |links| ==> IsLink(links[k].node)
    requires employees0 == Scan(visited, baseUrl, urljoin) && seen0 == UrlSet(employees0) && |employees0| < Cap(maxEmployees)
    ensures seen == UrlSet(employees)
    ensures !capped ==> employees == Scan(visited + links, baseUrl, urljoin) && |employees| < Cap(maxEmployees)
    ensures capped ==> exists n :: 0 < n <= |links| && employees == Scan(visited + links[..n], baseUrl, urljoin) &&
                                   |employees| == Cap(maxEmployees)
  {
    ghost var step := Step(baseUrl, urljoin);
    employees, seen := employees0, seen0;
    assert visited + links[..0] == visited;
    for li := 0 to |links|
      invariant employees == Accumulate(visited + links[..li], step)
      invariant seen == UrlSet(employees)
      invariant |employees| < Cap(maxEmployees)
    {
      ghost var prev := employees;
      var added;
      employees, seen, added := VisitLink(links[li], employees, seen, baseUrl, urljoin);
      AccumulateNext(visited, links, li, step, prev);
      if added && |employees| >= maxEmployees {
        assert employees == Scan(visited + links[..li + 1], baseUrl, urljoin);
        return employees, seen, true;
      }
    }
    assert links[..|links|] == links;
    assert employees == Scan(visited + links, baseUrl, urljoin);
    capped := false;
  }

  /** The body of the inner loop: the tests on one link, and the append when it passes them. */
  method VisitLink(a: Occurrence, employees0: seq<EmployeeEntry>, seen0: set<string>, baseUrl: string, urljoin: (string, string) -> string)
    returns (employees: seq<EmployeeEntry>, seen: set<string>, added: bool)
    requires IsLink(a.node) && seen0 == UrlSet(employees0)
    ensures employees == employees0 + AsSeq(Step(baseUrl, urljoin)(employees0, a))
    ensures seen == UrlSet(employees)
    ensures added <==> |employees| == |employees0| + 1
  {
    employees, seen, added := employees0, seen0, false;
    var href := a.node.attrs["href"];
    if !Contains(href, "/in/") {
      return;
    }
    var fullUrl := urljoin(baseUrl, href);
    if fullUrl in seen {
      return;
    }
    var name := GetText(a.node, " ");
    if name == "" {
      return;
    }
    var position := InferPositionOf(a);
    UrlSetAppend(employees, EmployeeEntry(name, position, fullUrl));
    employees := employees + [EmployeeEntry(name, position, fullUrl)];
    seen := seen + {fullUrl};
    added := true;
  }

  lemma {:induction false} UrlSetAppend(es: seq<EmployeeEntry>, e: EmployeeEntry)
    ensures UrlSet(es + [e]) == UrlSet(es) + {e.profileUrl}
  {
    assert (es + [e])[..|es|] == es;
  }

  lemma {:induction false} FlatMapStep(containers: seq<Container>, ci: nat)
    requires ci < |containers|
    ensures FlatMap(containers[..ci + 1], LinksIn) == FlatMap(containers[..ci], LinksIn) + LinksIn(containers[ci])
  {
    assert containers[..ci + 1][..ci] == containers[..ci];
  }

  /** The links visited up to a point of the scan are a prefix of all the links. */
  lemma {:induction false} AllLinksPrefix(doc: Node, containers: seq<Container>, ci: nat, visited: seq<Occurrence>, links: seq<Occurrence>, n: nat)
    requires containers == Containers(doc) && ci < |containers|
    requires visited == FlatMap(containers[..ci], LinksIn) && links == LinksIn(containers[ci]) && n <= |links|
    ensures visited + links[..n] <= AllLinks(doc)
  {
    assert AllLinks(doc) == FlatMap(containers, LinksIn);
    FlatMapAt(containers, LinksIn, ci);
    PrefixOfConcat(visited, links, FlatMap(containers[ci + 1..], LinksIn), n);
  }

  /** Returning at the cap gives the capped scan of every link. */
  lemma {:induction false} EmployeesCapped(doc: Node, containers: seq<Container>, ci: nat, visited: seq<Occurrence>, links: seq<Occurrence>, n: nat,
                        base: string, maxEmployees: int, urljoin: (string, string) -> string)
    requires containers == Containers(doc) && ci < |containers|
    requires visited == FlatMap(containers[..ci], LinksIn) && links == LinksIn(containers[ci]) && n <= |links|
    requires |Scan(visited + links[..n], base, urljoin)| == Cap(maxEmployees)
    ensures Scan(visited + links[..n], base, urljoin) == Employees(doc, base, maxEmployees, urljoin)
  {
    var prefix := visited + links[..n];
    AllLinksPrefix(doc, containers, ci, visited, links, n);
    assert AllLinks(doc)[..|prefix|] == prefix;
    AccumulatePrefix(AllLinks(doc), Step(base, urljoin), |prefix|);
  }
}
