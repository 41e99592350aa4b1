/**
 * The dynamic breadcrumb: the pathname is cut into segments, each segment
 * that is not a role or section prefix becomes a link whose href is the path
 * up to and including that segment, and a trail of more than five links is
 * folded behind an ellipsis.
 */
module Breadcrumb {

  import opened Maybe
  import opened Text
  import opened Seqs

  datatype Link = Link(href: string, name: string)

  const MaxVisibleLinks := 5
  const IgnoredSegments: seq<string> := ["admin", "dashboard"]
  const HomeLink := Link("/", "Home")

  // ---------------------------------------------------------------------------
  // Segments

  function NonEmpty(s: string): bool { s != "" }

  /** `pathname.split("/").filter(segment => segment !== "")`. */
  function PathSegments(pathname: string): (segs: seq<string>)
    ensures forall i :: 0 <= i < |segs| ==> segs[i] != "" && '/' !in segs[i]
    ensures IsSubseq(segs, Split(pathname, '/'))
    ensures |segs| == CountWhere(Split(pathname, '/'), NonEmpty)
  {
    Filter(Split(pathname, '/'), NonEmpty)
  }

  /** Rebuilding a path from clean segments and cutting it again gives the segments back. */
  lemma {:induction false} PathSegmentsRoundTrip(segs: seq<string>)
    requires forall i :: 0 <= i < |segs| ==> segs[i] != "" && '/' !in segs[i]
    ensures PathSegments("/" + Join(segs, '/')) == segs
  {
    if |segs| == 0 {
      RootHasNoSegments();
    } else {
      var parts := [""] + segs;
      LeadingSlashJoin(segs);
      assert forall i :: 0 <= i < |parts| ==> '/' !in parts[i];
      SplitJoin(parts, '/');
      FilterPrepend("", segs, NonEmpty);
    }
  }

  lemma RootHasNoSegments()
    ensures PathSegments("/" + Join([], '/')) == []
  {
    assert "/" + Join([], '/') == "/";
    assert Split("/", '/') == ["", ""];
  }

  lemma LeadingSlashJoin(segs: seq<string>)
    requires |segs| >= 1
    ensures Join([""] + segs, '/') == "/" + Join(segs, '/')
  {
    assert ([""] + segs)[1..] == segs;
  }

  // ---------------------------------------------------------------------------
  // Links

  /** `"/" + pathSegments.slice(0, i + 1).join("/")`: ignored segments stay in the prefix. */
  function Href(segs: seq<string>, i: nat): (h: string)
    requires i < |segs|
    ensures |h| >= 1 && h[0] == '/'
  {
    "/" + Join(segs[..i + 1], '/')
  }

  /** Following a link's href leads to a path whose segments are those up to the link's own. */
  lemma HrefLeadsToPrefix(segs: seq<string>, i: nat)
    requires i < |segs|
    requires forall j :: 0 <= j < |segs| ==> segs[j] != "" && '/' !in segs[j]
    ensures PathSegments(Href(segs, i)) == segs[..i + 1]
  {
    PathSegmentsRoundTrip(segs[..i + 1]);
  }

  /** The link the reduce pushes for segment `i`. */
  function LinkAt(segs: seq<string>, i: nat): (l: Link)
    requires i < |segs|
    ensures l.href == Href(segs, i)
    ensures |l.name| == |segs[i]|
    ensures segs[i] != "" ==> l.name[0] == UpperChar(segs[i][0]) && l.name[1..] == segs[i][1..]
  {
    Link(Href(segs, i), Capitalize(segs[i]))
  }

  /** The indices, from `i` on, of the segments that are not ignored, in increasing order. */
  function KeptFrom(segs: seq<string>, i: nat): (ks: seq<nat>)
    requires i <= |segs|
    ensures forall k :: 0 <= k < |ks| ==> i <= ks[k] < |segs| && segs[ks[k]] !in IgnoredSegments
    ensures forall k, l :: 0 <= k < l < |ks| ==> ks[k] < ks[l]
    ensures forall j :: i <= j < |segs| && segs[j] !in IgnoredSegments ==> j in ks
    decreases |segs| - i
  {
    if i == |segs| then []
    else if segs[i] in IgnoredSegments then KeptFrom(segs, i + 1)
    else [i] + KeptFrom(segs, i + 1)
  }

  /** Without ignored segments every segment from `i` on yields a link. */
  lemma {:induction false} NothingIgnoredKeepsAll(segs: seq<string>, i: nat)
    requires i <= |segs|
    requires forall j :: 0 <= j < |segs| ==> segs[j] !in IgnoredSegments
    ensures |KeptFrom(segs, i)| == |segs| - i
    ensures forall k :: 0 <= k < |segs| - i ==> KeptFrom(segs, i)[k] == i + k
    decreases |segs| - i
  {
    if i < |segs| {
      NothingIgnoredKeepsAll(segs, i + 1);
      var ks, rest := KeptFrom(segs, i), KeptFrom(segs, i + 1);
      assert segs[i] !in IgnoredSegments;
      assert ks == [i] + rest;
      forall k | 0 <= k < |segs| - i
        ensures ks[k] == i + k
      {
        if k > 0 {
          assert ks[k] == rest[k - 1];
        }
      }
    }
  }

  /** The links the reduce pushes for segments `i` onwards. */
  function LinksFrom(segs: seq<string>, i: nat): (ls: seq<Link>)
    requires i <= |segs|
    ensures |ls| == |KeptFrom(segs, i)|
    ensures forall k :: 0 <= k < |ls| ==> ls[k] == LinkAt(segs, KeptFrom(segs, i)[k])
    decreases |segs| - i
  {
    if i == |segs| then []
    else if segs[i] in IgnoredSegments then LinksFrom(segs, i + 1)
    else [LinkAt(segs, i)] + LinksFrom(segs, i + 1)
  }

  /**
   * `allLinks`: Home first, then one link per segment that is not "admin" or
   * "dashboard", in path order. Never empty.
   */
  function AllLinks(segs: seq<string>): (links: seq<Link>)
    ensures |links| >= 1 && links[0] == HomeLink
    ensures |links| == 1 + |KeptFrom(segs, 0)|
    ensures forall k :: 0 <= k < |KeptFrom(segs, 0)| ==> links[k + 1] == LinkAt(segs, KeptFrom(segs, 0)[k])
  {
    [HomeLink] + LinksFrom(segs, 0)
  }

  lemma AllLinksOf(segs: seq<string>, links: seq<Link>)
    requires LinksFrom(segs, 0) == links
    ensures AllLinks(segs) == [HomeLink] + links
  {
  }

  lemma LabPathJoin()
    ensures "/dashboard/admin/lab" == "/" + Join(["dashboard", "admin", "lab"], '/')
  {
    assert Join(["lab"], '/') == "lab";
    assert Join(["admin", "lab"], '/') == "admin/lab";
  }

  lemma LabPathLinks()
    ensures LinksFrom(["dashboard", "admin", "lab"], 0) == [Link("/dashboard/admin/lab", "Lab")]
  {
    var segs := ["dashboard", "admin", "lab"];
    assert segs[0] in IgnoredSegments && segs[1] in IgnoredSegments && segs[2] !in IgnoredSegments;
    assert LinksFrom(segs, 3) == [];
    assert segs[..3] == segs;
    LabPathJoin();
    assert Capitalize("lab") == "Lab";
    assert LinkAt(segs, 2) == Link("/dashboard/admin/lab", "Lab");
    assert LinksFrom(segs, 2) == [LinkAt(segs, 2)];
  }

  lemma LabPathSegments()
    ensures PathSegments("/dashboard/admin/lab") == ["dashboard", "admin", "lab"]
  {
    LabPathJoin();
    PathSegmentsRoundTrip(["dashboard", "admin", "lab"]);
  }

  /** `/dashboard/admin/lab` gives Home and one "Lab" link whose href keeps the ignored prefix. */
  lemma LabPathExample()
    ensures AllLinks(PathSegments("/dashboard/admin/lab")) == [HomeLink, Link("/dashboard/admin/lab", "Lab")]
  {
    LabPathSegments();
    LabPathLinks();
    AllLinksOf(["dashboard", "admin", "lab"], [Link("/dashboard/admin/lab", "Lab")]);
  }

  // ---------------------------------------------------------------------------
  // Labels

  /** The text a breadcrumb item shows: `label.replace("-", " ")`, only the first dash. */
  function DisplayLabel(l: Link): (text: string)
    ensures |text| == |l.name|
    ensures '-' !in l.name ==> text == l.name
    ensures '-' in l.name ==> text == l.name[IndexOf(l.name, '-') := ' ']
  {
    ReplaceFirst(l.name, '-', ' ')
  }

  /** Whether an item shows the home icon (any other label gets the bricks icon). */
  predicate ShowsHomeIcon(l: Link)
  {
    l.name == "Home"
  }

  /**
   * Besides the Home link, a segment's link gets the home icon exactly when
   * the segment is spelt "home" or "Home".
   */
  lemma {:induction false} LinkShowsHomeIcon(segs: seq<string>, i: nat)
    requires i < |segs|
    ensures ShowsHomeIcon(HomeLink)
    ensures ShowsHomeIcon(LinkAt(segs, i)) <==> segs[i] == "home" || segs[i] == "Home"
  {
    var s, l := segs[i], LinkAt(segs, i);
    if ShowsHomeIcon(l) {
      assert |s| == 4 && UpperChar(s[0]) == 'H' && s[1..] == "ome";
      assert s[0] == 'h' || s[0] == 'H';
      assert s == [s[0]] + s[1..];
    }
  }

  /** A two-dash label keeps its second dash: "X-ray-lab" is shown as "X ray-lab". */
  lemma DisplayLabelExample()
    ensures DisplayLabel(Link("/x-ray-lab", "X-ray-lab")) == "X ray-lab"
  {
    var s := "X-ray-lab";
    assert s[0] != '-' && s[1] == '-';
    assert IndexOf(s[1..], '-') == 0;
    assert s[1 := ' '] == "X ray-lab";
  }

  // ---------------------------------------------------------------------------
  // Layout

  /**
   * What the breadcrumb renders, left to right: the links before the
   * ellipsis (`lead`), the links folded into the ellipsis menu (`hidden`),
   * the links after it (`trail`) and the current page. `goBack` is the
   * "Go Back" button.
   */
  datatype Trail = Trail(
    goBack: bool,
    ellipsis: bool,
    lead: seq<Link>,
    hidden: seq<Link>,
    trail: seq<Link>,
    current: Option<Link>)

  /** Every link the trail renders, in order, the folded ones at the ellipsis's place. */
  function Rendered(t: Trail): seq<Link>
  {
    t.lead + t.hidden + t.trail + (if t.current.Some? then [t.current.value] else [])
  }

  /** `allLinks.slice(1, -2)`. */
  function HiddenLinks(all: seq<Link>): (h: seq<Link>)
    ensures |all| >= 3 ==> all == [all[0]] + h + [all[|all| - 2], all[|all| - 1]]
    ensures |all| < 3 ==> h == []
  {
    if |all| >= 3 then all[1..|all| - 2] else []
  }

  /**
   * The layout exactly as the component computes it. With more than five
   * links it shows the first, the ellipsis, `linksToDisplay.slice(-2)` (the
   * last TWO links) and then `lastLink` as the current page; otherwise it
   * shows `allLinks.slice(0, -1)` and `lastLink`.
   */
  function LayoutAsWritten(all: seq<Link>): (t: Trail)
    ensures t.goBack <==> |all| > 1
    ensures t.ellipsis <==> |all| > MaxVisibleLinks
    ensures |all| >= 1 ==> t.current == Some(all[|all| - 1])
    ensures |all| >= 1 && !t.ellipsis ==> Rendered(t) == all
    ensures |all| >= 1 && !t.ellipsis ==> t.lead == all[..|all| - 1] && t.hidden == [] && t.trail == []
    ensures t.ellipsis ==> t.lead == [all[0]] && t.hidden == all[1..|all| - 2]
    ensures t.ellipsis ==> t.trail == [all[|all| - 2], all[|all| - 1]]
    ensures t.ellipsis ==> Rendered(t) == all + [all[|all| - 1]]
  {
    var n := |all|;
    var showEllipsis := n > MaxVisibleLinks;
    var lastLink := if n > 0 then Some(all[n - 1]) else None;
    if showEllipsis then
      var linksToDisplay := [all[0]] + all[n - 3..];
      var t := Trail(n > 1, true, [all[0]], HiddenLinks(all), linksToDisplay[|linksToDisplay| - 2..], lastLink);
      assert Rendered(t) == [all[0]] + all[1..n - 2] + all[n - 2..] + [all[n - 1]];
      assert all == [all[0]] + all[1..n - 2] + all[n - 2..];
      t
    else
      var linksToDisplay := if n > 0 then all[..n - 1] else [];
      var t := Trail(n > 1, false, linksToDisplay, [], [], lastLink);
      assert n > 0 ==> all == all[..n - 1] + [all[n - 1]];
      t
  }

  /**
   * Whenever the ellipsis is used, the current page is rendered twice: once
   * as the last link after the ellipsis, once as the page itself.
   */
  lemma {:induction false} LayoutAsWrittenRepeatsLastLink(all: seq<Link>)
    requires |all| > MaxVisibleLinks
    ensures var r := Rendered(LayoutAsWritten(all));
      |r| == |all| + 1 && r[|all| - 1] == r[|all|] == all[|all| - 1]
  {
    var r := Rendered(LayoutAsWritten(all));
    assert r == all + [all[|all| - 1]];
    assert r[|all| - 1] == all[|all| - 1];
  }

  /** On any path with at least five shown segments the as-written trail repeats its last link. */
  lemma {:induction false} PathWithFiveSegmentsRepeats(segs: seq<string>)
    requires |KeptFrom(segs, 0)| >= MaxVisibleLinks
    ensures var r := Rendered(LayoutAsWritten(AllLinks(segs)));
      |r| == |AllLinks(segs)| + 1 && r[|r| - 2] == r[|r| - 1]
  {
    LayoutAsWrittenRepeatsLastLink(AllLinks(segs));
  }

  /** `/a/b/c/d/e` has five plain segments, so its trail of six links takes the ellipsis layout. */
  lemma FiveSegmentPathFolds()
    ensures |KeptFrom(PathSegments("/a/b/c/d/e"), 0)| == 5
  {
    FivePlainSegments();
    FivePlainSegmentsKept();
  }

  lemma FivePlainSegmentsKept()
    ensures |KeptFrom(["a", "b", "c", "d", "e"], 0)| == 5
    ensures KeptFrom(["a", "b", "c", "d", "e"], 0)[4] == 4
  {
    var segs := ["a", "b", "c", "d", "e"];
    assert forall j :: 0 <= j < 5 ==> segs[j] !in IgnoredSegments;
    NothingIgnoredKeepsAll(segs, 0);
  }

  /**
   * A concrete witness: on `/a/b/c/d/e` the as-written trail draws the link
   * to `/a/b/c/d/e`, labelled "E", twice in a row at its end.
   */
  lemma SampleTrailShowsLastLinkTwice()
    ensures var r := Rendered(LayoutAsWritten(AllLinks(PathSegments("/a/b/c/d/e"))));
      |r| == 7 && r[5] == r[6] == Link("/a/b/c/d/e", "E")
  {
    var all := AllLinks(PathSegments("/a/b/c/d/e"));
    SampleLastLink(all);
    LayoutAsWrittenRepeatsLastLink(all);
  }

  /** The trail of `/a/b/c/d/e` has six links, the last one to the page itself. */
  lemma SampleLastLink(all: seq<Link>)
    requires all == AllLinks(PathSegments("/a/b/c/d/e"))
    ensures |all| == 6 && all[5] == Link("/a/b/c/d/e", "E")
  {
    var segs := ["a", "b", "c", "d", "e"];
    FivePlainSegments();
    FivePlainSegmentsKept();
    assert all[5] == LinkAt(segs, 4);
    FifthSegmentLink();
  }

  lemma FifthSegmentLink()
    ensures LinkAt(["a", "b", "c", "d", "e"], 4) == Link("/a/b/c/d/e", "E")
  {
    var segs := ["a", "b", "c", "d", "e"];
    assert segs[..5] == segs;
    FiveSegmentsJoin();
    assert "/a/b/c/d/e" == "/" + "a/b/c/d/e";
    assert Capitalize("e") == "E";
  }

  lemma FiveSegmentsJoin()
    ensures Join(["a", "b", "c", "d", "e"], '/') == "a/b/c/d/e"
  {
    var segs := ["a", "b", "c", "d", "e"];
    assert Join(segs[4..], '/') == "e";
    assert Join(segs[3..], '/') == "d/e";
    assert Join(segs[2..], '/') == "c/d/e";
    assert Join(segs[1..], '/') == "b/c/d/e";
  }

  lemma FivePlainSegments()
    ensures PathSegments("/a/b/c/d/e") == ["a", "b", "c", "d", "e"]
  {
    var segs := ["a", "b", "c", "d", "e"];
    FiveSegmentsJoin();
    assert "/a/b/c/d/e" == "/" + "a/b/c/d/e";
    PathSegmentsRoundTrip(segs);
  }

  /**
   * The evidently intended layout: after the ellipsis only the next-to-last
   * link is drawn as a link, and the last one is drawn once, as the current
   * page. Every link is then rendered exactly once, in order, in both layouts.
   */
  function Layout(all: seq<Link>): (t: Trail)
    ensures t.goBack <==> |all| > 1
    ensures t.ellipsis <==> |all| > MaxVisibleLinks
    ensures |all| >= 1 ==> t.current == Some(all[|all| - 1])
    ensures |all| >= 1 ==> Rendered(t) == all
    ensures t.ellipsis ==> t.lead == [all[0]] && t.hidden == all[1..|all| - 2] && t.trail == [all[|all| - 2]]
    ensures |all| >= 1 && !t.ellipsis ==> t.lead == all[..|all| - 1] && t.hidden == [] && t.trail == []
  {
    var n := |all|;
    var lastLink := if n > 0 then Some(all[n - 1]) else None;
    if n > MaxVisibleLinks then
      var t := Trail(true, true, [all[0]], HiddenLinks(all), [all[n - 2]], lastLink);
      assert all == [all[0]] + all[1..n - 2] + [all[n - 2]] + [all[n - 1]];
      t
    else
      var linksToDisplay := if n > 0 then all[..n - 1] else [];
      assert n > 0 ==> all == all[..n - 1] + [all[n - 1]];
      Trail(n > 1, false, linksToDisplay, [], [], lastLink)
  }

  /**
   * The breadcrumb the component renders for a pathname: every link of the
   * trail once, except that with five or more shown segments the current
   * page is drawn twice at the end.
   */
  function BreadcrumbFor(pathname: string): (t: Trail)
    ensures |KeptFrom(PathSegments(pathname), 0)| < MaxVisibleLinks ==>
      Rendered(t) == AllLinks(PathSegments(pathname))
    ensures |KeptFrom(PathSegments(pathname), 0)| >= MaxVisibleLinks ==>
      var all := AllLinks(PathSegments(pathname));
      Rendered(t) == all + [all[|all| - 1]]
    ensures Rendered(t)[0] == HomeLink
    ensures t.goBack <==> |KeptFrom(PathSegments(pathname), 0)| >= 1
    ensures t.ellipsis <==> |KeptFrom(PathSegments(pathname), 0)| >= MaxVisibleLinks
    ensures var all := AllLinks(PathSegments(pathname));
      !t.ellipsis ==> t.lead == all[..|all| - 1] && t.hidden == [] && t.trail == []
    ensures var all := AllLinks(PathSegments(pathname));
      t.ellipsis ==> t.lead == [all[0]] && t.hidden == all[1..|all| - 2] && t.trail == [all[|all| - 2], all[|all| - 1]]
  {
    LayoutAsWritten(AllLinks(PathSegments(pathname)))
  }

  /** The corrected breadcrumb of "## Findings": the trail renders every link exactly once. */
  function CorrectedBreadcrumbFor(pathname: string): (t: Trail)
    ensures Rendered(t) == AllLinks(PathSegments(pathname))
    ensures Rendered(t)[0] == HomeLink
    ensures t.goBack <==> |KeptFrom(PathSegments(pathname), 0)| >= 1
    ensures t.ellipsis <==> |KeptFrom(PathSegments(pathname), 0)| >= MaxVisibleLinks
    ensures var all := AllLinks(PathSegments(pathname));
      !t.ellipsis ==> t.lead == all[..|all| - 1] && t.hidden == [] && t.trail == []
    ensures var all := AllLinks(PathSegments(pathname));
      t.ellipsis ==> t.lead == [all[0]] && t.hidden == all[1..|all| - 2] && t.trail == [all[|all| - 2]]
  {
    Layout(AllLinks(PathSegments(pathname)))
  }

}
