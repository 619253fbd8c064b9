/** The breadcrumb trail shown above every dashboard page
    (`src/hooks/use-breadcrumbs.tsx`): three paths have a fixed trail, any
    other path gets one crumb per non-empty segment. */
module Breadcrumbs {
  import opened Common

  datatype Crumb = Crumb(title: string, link: string)

  // ---------------------------------------------------------------- splitting

  /** `s.split('/')`: the pieces between slashes, empty ones included, so
      there is always at least one. */
  function Split(s: string): (r: seq<string>)
    ensures |r| >= 1
    ensures forall i :: 0 <= i < |r| ==> '/' !in r[i]
  {
    if s == [] then [""]
    else
      var rest := Split(s[1..]);
      if s[0] == '/' then [""] + rest
      else [[s[0]] + rest[0]] + rest[1..]
  }

  /** `xs.join('/')`. */
  function Join(xs: seq<string>): string
  {
    if xs == [] then ""
    else if |xs| == 1 then xs[0]
    else xs[0] + "/" + Join(xs[1..])
  }

  predicate NonEmpty(s: string)
  {
    s != ""
  }

  /** `pathname.split('/').filter(Boolean)`. */
  function Segments(pathname: string): (r: seq<string>)
    ensures forall i :: 0 <= i < |r| ==> r[i] != "" && '/' !in r[i]
  {
    var pieces := Split(pathname);
    assert forall x :: x in pieces ==> '/' !in x;
    Filter(pieces, NonEmpty)
  }

  /** One step of `Split` over a slash. */
  lemma SplitSlash(t: string)
    ensures Split(['/'] + t) == [""] + Split(t)
  {
    assert (['/'] + t)[1..] == t;
  }

  /** One step of `Split` over any other character. */
  lemma SplitChar(c: char, t: string)
    requires c != '/'
    ensures Split([c] + t) == [[c] + Split(t)[0]] + Split(t)[1..]
  {
    assert ([c] + t)[1..] == t;
  }

  /** The inductive step of `SplitAtSlash`: `v` is `u` with one more
      leading character, `u` is `t + "/" + b`. */
  lemma SplitAtSlashStep(c: char, t: string, b: string, u: string, v: string)
    requires v == [c] + u
    requires Split(u) == Split(t) + Split(b)
    ensures Split(v) == Split([c] + t) + Split(b)
  {
    var st, sb := Split(t), Split(b);
    if c == '/' {
      SplitSlash(u);
      SplitSlash(t);
      ConsAppend([""], st, sb);
    } else {
      SplitChar(c, u);
      SplitChar(c, t);
      assert (st + sb)[0] == st[0];
      ReplaceHeadAppend([c] + st[0], st, sb);
    }
  }

  lemma ConsAppend<T>(a: seq<T>, s: seq<T>, t: seq<T>)
    ensures a + (s + t) == (a + s) + t
  {
  }

  lemma ReplaceHeadAppend<T>(x: T, s: seq<T>, t: seq<T>)
    requires |s| >= 1
    ensures [x] + (s + t)[1..] == ([x] + s[1..]) + t
  {
    assert (s + t)[1..] == s[1..] + t;
  }

  /** Splitting at a slash splits the two sides independently. */
  lemma {:induction false} SplitAtSlash(a: string, b: string)
    ensures Split(a + "/" + b) == Split(a) + Split(b)
  {
    if a == [] {
      assert a + "/" + b == ['/'] + b;
      SplitSlash(b);
    } else {
      var t := a[1..];
      assert a == [a[0]] + t;
      assert a + "/" + b == [a[0]] + (t + "/" + b);
      SplitAtSlash(t, b);
      SplitAtSlashStep(a[0], t, b, t + "/" + b, a + "/" + b);
    }
  }

  /** A piece without slashes splits to itself. */
  lemma {:induction false} SplitOfPiece(a: string)
    requires '/' !in a
    ensures Split(a) == [a]
  {
    if a != [] {
      SplitOfPiece(a[1..]);
      assert a == [a[0]] + a[1..];
    }
  }

  /** Splitting undoes joining. */
  lemma {:induction false} SplitJoin(xs: seq<string>)
    requires xs != []
    requires forall i :: 0 <= i < |xs| ==> '/' !in xs[i]
    ensures Split(Join(xs)) == xs
  {
    if |xs| == 1 {
      SplitOfPiece(xs[0]);
    } else {
      SplitJoin(xs[1..]);
      SplitAtSlash(xs[0], Join(xs[1..]));
      SplitOfPiece(xs[0]);
    }
  }

  /** An empty piece in front is dropped by the filter. */
  lemma DropEmptyHead(xs: seq<string>)
    ensures Filter([""] + xs, NonEmpty) == Filter(xs, NonEmpty)
  {
    var s := [""] + xs;
    assert s[0] == "" && s[1..] == xs;
  }

  /** A leading slash splits off an empty piece. */
  lemma SplitOfPath(xs: seq<string>)
    requires xs != []
    requires forall i :: 0 <= i < |xs| ==> '/' !in xs[i]
    ensures Split("/" + Join(xs)) == [""] + xs
  {
    var p := "/" + Join(xs);
    assert p[0] == '/' && p[1..] == Join(xs);
    SplitJoin(xs);
  }

  /** A path written as '/' followed by non-empty, slash-free segments has
      exactly those segments. */
  lemma SegmentsOfPath(xs: seq<string>)
    requires forall i :: 0 <= i < |xs| ==> xs[i] != "" && '/' !in xs[i]
    ensures Segments("/" + Join(xs)) == xs
  {
    if xs == [] {
      RootSegments();
    } else {
      SplitOfPath(xs);
      DropEmptyHead(xs);
      FilterAll(xs, NonEmpty);
    }
  }

  /** The root has no segments. */
  lemma RootSegments()
    ensures Segments("/" + Join([])) == []
    ensures Segments("") == []
  {
    assert "/" + Join([]) == "" + "/" + "";
    SplitAtSlash("", "");
    assert Split("") == [""];
    DropEmptyHead([""]);
    DropEmptyHead([]);
    assert Filter([], NonEmpty) == [];
  }

  /** Joining one more segment adds a slash and that segment. */
  lemma JoinSnoc(xs: seq<string>, x: string)
    requires xs != []
    ensures Join(xs + [x]) == Join(xs) + "/" + x
    decreases |xs|
  {
    if |xs| > 1 {
      assert (xs + [x])[1..] == xs[1..] + [x];
      JoinSnoc(xs[1..], x);
    }
  }

  // ---------------------------------------------------------------- titles

  /** `toLowerCase` on ASCII letters. */
  function Lower(c: char): char
  {
    if 'A' <= c <= 'Z' then (c as int + 32) as char else c
  }

  /** `toUpperCase` on ASCII letters. */
  function Upper(c: char): char
  {
    if 'a' <= c <= 'z' then (c as int - 32) as char else c
  }

  /** `segment.toLowerCase() === 'new'`. */
  predicate IsNew(s: string)
  {
    |s| == 3 && Lower(s[0]) == 'n' && Lower(s[1]) == 'e' && Lower(s[2]) == 'w'
  }

  /** `charAt(0).toUpperCase() + slice(1)`. */
  function Capitalize(s: string): (r: string)
    ensures |r| == |s|
    ensures s != "" ==> r[0] == Upper(s[0]) && r[1..] == s[1..]
  {
    if s == "" then "" else [Upper(s[0])] + s[1..]
  }

  /** The shipment-id rule: at most the first five characters. */
  function Truncate5(s: string): (r: string)
    ensures |s| <= 5 ==> r == s
    ensures |s| > 5 ==> |r| == 5 && s[..5] == r
  {
    if |s| > 5 then s[..5] else s
  }

  /** Whether the trail is under `/dashboard/fletes/`. */
  predicate UnderFletes(segs: seq<string>)
  {
    |segs| >= 2 && segs[0] == "dashboard" && segs[1] == "fletes"
  }

  /** The title of crumb `i`: "Nuevo" first, then the shipment-id rule, then
      capitalisation. */
  function Title(segs: seq<string>, i: nat): (r: string)
    requires i < |segs|
    ensures IsNew(segs[i]) ==> r == "Nuevo"
    ensures !IsNew(segs[i]) ==> |r| <= |segs[i]|
    ensures !IsNew(segs[i]) && !(UnderFletes(segs) && i == 2) ==> |r| == |segs[i]|
    // a shipment id shows its first five characters, or all of a shorter one
    ensures !IsNew(segs[i]) && UnderFletes(segs) && i == 2 ==>
      r == segs[i][..|r|] && (|r| == 5 || r == segs[i])
  {
    if IsNew(segs[i]) then "Nuevo"
    else if UnderFletes(segs) && i == 2 then Truncate5(segs[i])
    else Capitalize(segs[i])
  }

  /** The link of crumb `i`: '/' and the first `i + 1` segments. */
  function Link(segs: seq<string>, i: nat): (r: string)
    requires i < |segs|
    ensures |r| >= 1 && r[0] == '/'
  {
    "/" + Join(segs[..i + 1])
  }

  /** A crumb's link leads back to the path of the crumbs up to it. */
  lemma LinkSegments(segs: seq<string>, i: nat)
    requires i < |segs|
    requires forall j :: 0 <= j <= i ==> segs[j] != "" && '/' !in segs[j]
    ensures Segments(Link(segs, i)) == segs[..i + 1]
  {
    SegmentsOfPath(segs[..i + 1]);
  }

  // ---------------------------------------------------------------- the trail

  /** The fixed trails of `routeMapping`. */
  function RouteMapping(pathname: string): (r: Option<seq<Crumb>>)
    ensures r.Some? <==> pathname == "/dashboard" || pathname == "/dashboard/employee" || pathname == "/dashboard/product"
    // every fixed trail starts at the dashboard and ends at the page itself
    ensures r.Some? ==> |r.value| >= 1 && r.value[0] == Crumb("Dashboard", "/dashboard") && r.value[|r.value| - 1].link == pathname
  {
    if pathname == "/dashboard" then
      Some([Crumb("Dashboard", "/dashboard")])
    else if pathname == "/dashboard/employee" then
      Some([Crumb("Dashboard", "/dashboard"), Crumb("Employee", "/dashboard/employee")])
    else if pathname == "/dashboard/product" then
      Some([Crumb("Dashboard", "/dashboard"), Crumb("Product", "/dashboard/product")])
    else None
  }

  /** The trail built from the segments. */
  function Dynamic(segs: seq<string>): (r: seq<Crumb>)
    ensures |r| == |segs|
    ensures forall i :: 0 <= i < |segs| ==> r[i] == Crumb(Title(segs, i), Link(segs, i))
  {
    seq(|segs|, i requires 0 <= i < |segs| => Crumb(Title(segs, i), Link(segs, i)))
  }

  /** `useBreadcrumbs` for a given pathname. */
  function BreadcrumbsFor(pathname: string): (r: seq<Crumb>)
    ensures RouteMapping(pathname).Some? ==> r == RouteMapping(pathname).value
    ensures RouteMapping(pathname).None? ==> |r| == |Segments(pathname)|
  {
    match RouteMapping(pathname)
    case Some(fixed) => fixed
    case None => Dynamic(Segments(pathname))
  }

  // ---------------------------------------------------------------- properties

  /** The three fixed trails. */
  lemma FixedTrails()
    ensures BreadcrumbsFor("/dashboard") == [Crumb("Dashboard", "/dashboard")]
    ensures BreadcrumbsFor("/dashboard/employee")
      == [Crumb("Dashboard", "/dashboard"), Crumb("Employee", "/dashboard/employee")]
    ensures BreadcrumbsFor("/dashboard/product")
      == [Crumb("Dashboard", "/dashboard"), Crumb("Product", "/dashboard/product")]
  {
  }

  /** The empty path and the root have no crumbs. */
  lemma RootHasNoCrumbs()
    ensures BreadcrumbsFor("") == []
    ensures BreadcrumbsFor("/") == []
  {
    RootSegments();
    assert "/" + Join([]) == "/";
  }

  /** For a path of non-empty segments that is not mapped, there is one crumb
      per segment in order, linking to that segment's prefix of the path, and
      titled by the three rules in their order of precedence. */
  lemma DynamicTrail(xs: seq<string>, i: nat)
    requires forall j :: 0 <= j < |xs| ==> xs[j] != "" && '/' !in xs[j]
    requires RouteMapping("/" + Join(xs)).None?
    requires i < |xs|
    ensures |BreadcrumbsFor("/" + Join(xs))| == |xs|
    ensures BreadcrumbsFor("/" + Join(xs))[i].link == "/" + Join(xs[..i + 1])
    ensures IsNew(xs[i]) ==> BreadcrumbsFor("/" + Join(xs))[i].title == "Nuevo"
    ensures !IsNew(xs[i]) && UnderFletes(xs) && i == 2 ==>
      BreadcrumbsFor("/" + Join(xs))[i].title == Truncate5(xs[i])
    ensures !IsNew(xs[i]) && !(UnderFletes(xs) && i == 2) ==>
      BreadcrumbsFor("/" + Join(xs))[i].title == Capitalize(xs[i])
  {
    SegmentsOfPath(xs);
  }

  /** The last crumb links to the path itself. */
  lemma LastCrumbIsThePage(xs: seq<string>)
    requires forall j :: 0 <= j < |xs| ==> xs[j] != "" && '/' !in xs[j]
    requires RouteMapping("/" + Join(xs)).None?
    requires xs != []
    ensures |BreadcrumbsFor("/" + Join(xs))| == |xs|
    ensures BreadcrumbsFor("/" + Join(xs))[|xs| - 1].link == "/" + Join(xs)
  {
    SegmentsOfPath(xs);
    assert xs[..|xs|] == xs;
  }

  /** Each crumb's link extends the previous one by one segment. */
  lemma LinksExtendOneSegment(segs: seq<string>, i: nat)
    requires i + 1 < |segs|
    ensures Link(segs, i + 1) == Link(segs, i) + "/" + segs[i + 1]
  {
    assert segs[..i + 2] == segs[..i + 1] + [segs[i + 1]];
    JoinSnoc(segs[..i + 1], segs[i + 1]);
  }

  /** The fixed trail of /dashboard is the one the segment rule builds. */
  lemma DashboardTrailAgrees()
    ensures Dynamic(["dashboard"]) == RouteMapping("/dashboard").value
  {
    var segs := ["dashboard"];
    assert segs[..1] == segs;
    assert Title(segs, 0) == Capitalize("dashboard") == "Dashboard";
    assert Link(segs, 0) == "/dashboard";
    var d := Dynamic(segs);
    assert d == [d[0]];
  }

  /** The two-level fixed trails are the ones the segment rule builds. */
  lemma SectionTrailsAgree()
    ensures Dynamic(["dashboard", "employee"]) == RouteMapping("/dashboard/employee").value
    ensures Dynamic(["dashboard", "product"]) == RouteMapping("/dashboard/product").value
  {
    assert Capitalize("employee") == "Employee" && "/dashboard/" + "employee" == "/dashboard/employee";
    assert Capitalize("product") == "Product" && "/dashboard/" + "product" == "/dashboard/product";
    SectionTrailAgrees("employee", "Employee");
    SectionTrailAgrees("product", "Product");
  }

  /** The first crumb of every dashboard trail. */
  lemma DashboardTitle()
    ensures Capitalize("dashboard") == "Dashboard"
  {
    assert Upper('d') == 'D';
    assert "dashboard"[1..] == "ashboard";
  }

  /** Any section name other than "new" gets the Dashboard crumb and then
      its capitalized name, linking to the section's path. */
  lemma SectionTrailAgrees(section: string, caption: string)
    requires !IsNew(section)
    requires Capitalize(section) == caption
    ensures Dynamic(["dashboard", section])
      == [Crumb("Dashboard", "/dashboard"), Crumb(caption, "/dashboard/" + section)]
  {
    var segs := ["dashboard", section];
    DashboardTitle();
    assert segs[..1] == ["dashboard"];
    assert segs[..2] == segs;
    assert Join(segs) == "dashboard" + "/" + Join([section]);
    assert Title(segs, 0) == Capitalize("dashboard");
    assert Title(segs, 1) == caption;
    assert Link(segs, 0) == "/dashboard";
    assert Link(segs, 1) == "/dashboard/" + section;
    var d := Dynamic(segs);
    assert d == [d[0], d[1]];
  }
}
