/** The application shell (App.jsx): the route table, which routes are
    wrapped in the authentication guard, the catch-all redirect, the
    loading gate and the choice between the full-width and the padded
    layout. */
module Routing {
  import opened Effects

  datatype Page =
    | Home | Login | About | Privacy | AuthSuccess
    | Dashboard | CreateBlog | EditBlog | BlogDetail | Profile

  /** One segment of a route pattern: a literal, or the `:id` parameter. */
  datatype Segment = Lit(name: string) | Param

  datatype Route = Route(pattern: seq<Segment>, page: Page, isProtected: bool)

  /** What the router does with a pathname: render a page (with the value
      of `:id`, if the pattern has one), or redirect. */
  datatype Outcome =
    | Render(page: Page, id: Option<string>, isProtected: bool)
    | Redirect(to: string, replace: bool)

  /** What the shell shows: the "Synchronizing..." spinner, or the main
      area with its layout and the routed outcome. */
  datatype Screen = Synchronizing | Main(fullPage: bool, outcome: Outcome)

  /** The `<Routes>` table, in source order.  `isProtected` marks the
      elements wrapped in `<ProtectedRoute>`. */
  const Routes: seq<Route> := [
    Route([], Home, false),
    Route([Lit("login")], Login, false),
    Route([Lit("about")], About, false),
    Route([Lit("privacy")], Privacy, false),
    Route([Lit("auth"), Lit("success")], AuthSuccess, false),
    Route([Lit("dashboard")], Dashboard, true),
    Route([Lit("create")], CreateBlog, true),
    Route([Lit("blog"), Param, Lit("edit")], EditBlog, true),
    Route([Lit("blog"), Param], BlogDetail, true),
    Route([Lit("profile")], Profile, true)
  ]

  /** The pathnames that get the full-width layout, as listed. */
  const FullPagePaths: seq<string> := ["/", "/login", "/dashboard", "/create", "/profile"]

  predicate IsFullPageRoute(path: string) {
    path in FullPagePaths || "/blog/" <= path
  }

  /** Index of the first `c` in `s`, or `|s|` if there is none. */
  function IndexOf(s: string, c: char): (i: nat)
    ensures i <= |s|
    ensures i < |s| ==> s[i] == c
    ensures c !in s[..i]
  {
    if s == [] || s[0] == c then 0
    else
      var j := IndexOf(s[1..], c);
      assert s[..1 + j] == [s[0]] + s[1..][..j];
      1 + j
  }

  /** `s.split("/")`. */
  function SplitOnSlash(s: string): (parts: seq<string>)
    ensures |parts| >= 1
    ensures forall p :: p in parts ==> '/' !in p
    decreases |s|
  {
    var i := IndexOf(s, '/');
    if i == |s| then
      assert s[..i] == s;
      [s]
    else
      [s[..i]] + SplitOnSlash(s[i + 1..])
  }

  /** `parts.join("/")`. */
  function JoinWithSlash(parts: seq<string>): string
    requires |parts| >= 1
  {
    if |parts| == 1 then parts[0] else parts[0] + "/" + JoinWithSlash(parts[1..])
  }

  lemma IndexOfAbsent(s: string, c: char)
    requires c !in s
    ensures IndexOf(s, c) == |s|
  {
  }

  lemma IndexOfFirst(a: string, c: char, rest: string)
    requires c !in a
    ensures IndexOf(a + [c] + rest, c) == |a|
  {
    var s := a + [c] + rest;
    IndexOfAtMost(s, c, |a|);
    assert s[..|a|] == a;
  }

  lemma {:induction false} IndexOfAtMost(s: string, c: char, j: nat)
    requires j < |s| && s[j] == c
    ensures IndexOf(s, c) <= j
    decreases j
  {
    if j > 0 && s[0] != c {
      IndexOfAtMost(s[1..], c, j - 1);
    }
  }

  /** Splitting on '/' undoes joining with '/' when no part holds a '/'. */
  lemma {:induction false} SplitJoin(parts: seq<string>)
    requires |parts| >= 1
    requires forall p :: p in parts ==> '/' !in p
    ensures SplitOnSlash(JoinWithSlash(parts)) == parts
    decreases |parts|
  {
    assert parts[0] in parts;
    if |parts| > 1 {
      var tail := JoinWithSlash(parts[1..]);
      SplitAtFirstSlash(parts[0], tail);
      SplitJoin(parts[1..]);
      assert parts == [parts[0]] + parts[1..];
    } else {
      IndexOfAbsent(parts[0], '/');
      assert parts[0][..|parts[0]|] == parts[0];
    }
  }

  lemma SplitAtFirstSlash(a: string, tail: string)
    requires '/' !in a
    ensures SplitOnSlash(a + "/" + tail) == [a] + SplitOnSlash(tail)
  {
    var s := a + "/" + tail;
    IndexOfFirst(a, '/', tail);
    assert s[..|a|] == a;
    assert s[|a| + 1..] == tail;
  }

  /** Joining with '/' undoes splitting on '/'. */
  lemma {:induction false} JoinSplit(s: string)
    ensures JoinWithSlash(SplitOnSlash(s)) == s
    decreases |s|
  {
    var i := IndexOf(s, '/');
    if i < |s| {
      var parts := SplitOnSlash(s);
      var rest := SplitOnSlash(s[i + 1..]);
      assert parts == [s[..i]] + rest;
      assert parts[1..] == rest;
      JoinSplit(s[i + 1..]);
      assert JoinWithSlash(parts) == s[..i] + "/" + s[i + 1..];
      assert s == s[..i] + "/" + s[i + 1..];
    }
  }

  /** `parts` without its trailing empty strings. */
  function DropTrailingEmpty(parts: seq<string>): (r: seq<string>)
    ensures r <= parts
    ensures r == [] || r[|r| - 1] != ""
    ensures forall k :: |r| <= k < |parts| ==> parts[k] == ""
  {
    if parts == [] || parts[|parts| - 1] != "" then parts
    else DropTrailingEmpty(parts[..|parts| - 1])
  }

  /** The segments a pathname is matched on: the parts after the leading
      '/', with trailing slashes ignored.  A pathname that does not start
      with '/' matches nothing. */
  function Segments(path: string): Option<seq<string>> {
    if path == [] || path[0] != '/' then None
    else Some(DropTrailingEmpty(SplitOnSlash(path[1..])))
  }

  /** A pattern matches segment by segment; `:id` matches any non-empty
      segment. */
  predicate Matches(pattern: seq<Segment>, segs: seq<string>) {
    |pattern| == |segs| &&
    forall k :: 0 <= k < |segs| ==>
      match pattern[k]
      case Lit(name) => segs[k] == name
      case Param => segs[k] != ""
  }

  /** The value the pattern binds to `:id`. */
  function ParamOf(pattern: seq<Segment>, segs: seq<string>): (r: Option<string>)
    requires |pattern| == |segs|
    ensures r.Some? <==> Param in pattern
    ensures r.Some? ==> exists k :: 0 <= k < |segs| && pattern[k] == Param && segs[k] == r.value
  {
    if pattern == [] then None
    else if pattern[0] == Param then Some(segs[0])
    else
      var r := ParamOf(pattern[1..], segs[1..]);
      assert Param in pattern[1..] <==> Param in pattern;
      if r.Some? then
        var k :| 0 <= k < |segs| - 1 && pattern[1..][k] == Param && segs[1..][k] == r.value;
        assert pattern[k + 1] == Param && segs[k + 1] == r.value;
        r
      else r
  }

  /** The first route of `routes` whose pattern matches `segs`. */
  function FirstMatch(routes: seq<Route>, segs: seq<string>): (r: Option<nat>)
    ensures r.Some? ==> r.value < |routes| && Matches(routes[r.value].pattern, segs)
    ensures r.Some? ==> forall j :: 0 <= j < r.value ==> !Matches(routes[j].pattern, segs)
    ensures r.None? ==> forall j :: 0 <= j < |routes| ==> !Matches(routes[j].pattern, segs)
  {
    if routes == [] then None
    else if Matches(routes[0].pattern, segs) then Some(0)
    else
      match FirstMatch(routes[1..], segs)
      case None => None
      case Some(j) => Some(j + 1)
  }

  /** The route a pathname selects, if any. */
  function RouteOf(path: string): Option<nat> {
    match Segments(path)
    case None => None
    case Some(segs) => FirstMatch(Routes, segs)
  }

  /** The element `<Routes>` chooses for a pathname; a path that no route
      matches hits the catch-all `<Navigate to="/" replace />`. */
  function Resolve(path: string): (o: Outcome)
    ensures o.Redirect? <==> RouteOf(path).None?
    ensures o.Redirect? ==> o == Redirect("/", true)
    ensures o.Redirect? ==> forall k :: 0 <= k < |Routes| ==>
      Segments(path).None? || !Matches(Routes[k].pattern, Segments(path).value)
    ensures o.Render? ==>
      (exists k :: 0 <= k < |Routes| && o.page == Routes[k].page && o.isProtected == Routes[k].isProtected)
  {
    match RouteOf(path)
    case None => Redirect("/", true)
    case Some(k) =>
      var segs := Segments(path).value;
      Render(Routes[k].page, ParamOf(Routes[k].pattern, segs), Routes[k].isProtected)
  }

  /** MainLayout: while the session is loading only the spinner shows and
      no route is chosen; afterwards the main area uses the full-width
      layout exactly for the full-page routes. */
  function Layout(path: string, loading: bool): (s: Screen)
    ensures s.Synchronizing? <==> loading
    ensures s.Main? ==> s.outcome == Resolve(path) && (s.fullPage <==> IsFullPageRoute(path))
  {
    if loading then Synchronizing else Main(IsFullPageRoute(path), Resolve(path))
  }

  /** The guard wraps exactly the routes of signed-in pages. */
  lemma ProtectedPages(path: string)
    ensures Resolve(path).Render? ==>
      (Resolve(path).isProtected <==>
        Resolve(path).page in {Dashboard, CreateBlog, EditBlog, BlogDetail, Profile})
  {
  }

  /** Two patterns that no segment list can both match. */
  predicate Distinguishable(p: seq<Segment>, q: seq<Segment>) {
    |p| != |q| ||
    (|p| > 0 &&
      ((p[0].Lit? && q[0].Lit? && p[0].name != q[0].name) || Distinguishable(p[1..], q[1..])))
  }

  lemma {:induction false} DistinguishableExcludes(p: seq<Segment>, q: seq<Segment>, segs: seq<string>)
    requires Distinguishable(p, q) && Matches(p, segs)
    ensures !Matches(q, segs)
    decreases |p|
  {
    if |p| == |q| && Matches(q, segs) {
      if !(p[0].Lit? && q[0].Lit? && p[0].name != q[0].name) {
        assert Matches(p[1..], segs[1..]) by {
          forall k | 0 <= k < |segs| - 1 ensures
            match p[1..][k] case Lit(name) => segs[1..][k] == name case Param => segs[1..][k] != ""
          {
            assert p[1..][k] == p[k + 1] && segs[1..][k] == segs[k + 1];
          }
        }
        assert Matches(q[1..], segs[1..]) by {
          forall k | 0 <= k < |segs| - 1 ensures
            match q[1..][k] case Lit(name) => segs[1..][k] == name case Param => segs[1..][k] != ""
          {
            assert q[1..][k] == q[k + 1] && segs[1..][k] == segs[k + 1];
          }
        }
        DistinguishableExcludes(p[1..], q[1..], segs[1..]);
      }
    }
  }

  /** No pathname matches two routes, so the router's ranking of routes
      cannot change which one is chosen. */
  lemma RoutesDisjoint(i: nat, j: nat, segs: seq<string>)
    requires i < |Routes| && j < |Routes| && i != j
    requires Matches(Routes[i].pattern, segs)
    ensures !Matches(Routes[j].pattern, segs)
  {
    assert Distinguishable(Routes[i].pattern, Routes[j].pattern);
    DistinguishableExcludes(Routes[i].pattern, Routes[j].pattern, segs);
  }

  /** The segments of a pattern with `:id` bound to `id`. */
  function Instantiate(pattern: seq<Segment>, id: string): (segs: seq<string>)
    ensures |segs| == |pattern|
  {
    if pattern == [] then []
    else [match pattern[0] case Lit(name) => name case Param => id] + Instantiate(pattern[1..], id)
  }

  /** The canonical pathname of a pattern with `:id` bound to `id`. */
  function PathFor(pattern: seq<Segment>, id: string): string {
    if pattern == [] then "/" else "/" + JoinWithSlash(Instantiate(pattern, id))
  }

  lemma {:induction false} InstantiateAt(pattern: seq<Segment>, id: string, k: nat)
    requires k < |pattern|
    ensures Instantiate(pattern, id)[k] == match pattern[k] case Lit(name) => name case Param => id
    decreases |pattern|
  {
    if k > 0 {
      InstantiateAt(pattern[1..], id, k - 1);
    }
  }

  /** The literals of a pattern are single non-empty path segments. */
  predicate WellFormed(pattern: seq<Segment>) {
    forall k :: 0 <= k < |pattern| ==> pattern[k].Lit? ==> pattern[k].name != "" && '/' !in pattern[k].name
  }

  lemma RoutesWellFormed(k: nat)
    requires k < |Routes|
    ensures WellFormed(Routes[k].pattern)
  {
    var pattern := Routes[k].pattern;
    forall j | 0 <= j < |pattern| && pattern[j].Lit?
      ensures pattern[j].name != "" && '/' !in pattern[j].name
    {
    }
  }

  /** The canonical pathname of a pattern yields back its segments, and the
      pattern matches them. */
  lemma {:induction false} CanonicalPathSegments(pattern: seq<Segment>, id: string)
    requires WellFormed(pattern) && id != "" && '/' !in id
    ensures Segments(PathFor(pattern, id)) == Some(Instantiate(pattern, id))
    ensures Matches(pattern, Instantiate(pattern, id))
  {
    var path := PathFor(pattern, id);
    var segs := Instantiate(pattern, id);
    forall j | 0 <= j < |segs| ensures segs[j] != "" && '/' !in segs[j] {
      InstantiateAt(pattern, id, j);
    }
    forall j | 0 <= j < |segs| ensures
      match pattern[j] case Lit(name) => segs[j] == name case Param => segs[j] != ""
    {
      InstantiateAt(pattern, id, j);
    }
    if pattern == [] {
      assert path[1..] == "";
      IndexOfAbsent("", '/');
      assert SplitOnSlash("") == [""];
    } else {
      assert path[1..] == JoinWithSlash(segs);
      forall p | p in segs ensures '/' !in p {
        var j :| 0 <= j < |segs| && segs[j] == p;
      }
      SplitJoin(segs);
      assert DropTrailingEmpty(segs) == segs;
    }
  }

  /** A pattern with a parameter binds it to the segment at its place. */
  lemma ParamOfInstance(pattern: seq<Segment>, id: string)
    ensures ParamOf(pattern, Instantiate(pattern, id)) ==
      if Param in pattern then Some(id) else None
  {
    var segs := Instantiate(pattern, id);
    if Param in pattern {
      var v := ParamOf(pattern, segs).value;
      var j :| 0 <= j < |segs| && pattern[j] == Param && segs[j] == v;
      InstantiateAt(pattern, id, j);
    }
  }

  /** A pathname whose segments match route `k` selects route `k`. */
  lemma MatchSelects(k: nat, segs: seq<string>)
    requires k < |Routes| && Matches(Routes[k].pattern, segs)
    ensures FirstMatch(Routes, segs) == Some(k)
  {
    var r := FirstMatch(Routes, segs);
    if r != Some(k) {
      RoutesDisjoint(k, r.value, segs);
    }
  }

  /** Every route is reached by its own canonical pathname, for every
      value of `:id` that is a single non-empty path segment. */
  lemma RouteRoundTrip(k: nat, id: string)
    requires k < |Routes|
    requires id != "" && '/' !in id
    ensures Resolve(PathFor(Routes[k].pattern, id)) ==
      Render(Routes[k].page, if Param in Routes[k].pattern then Some(id) else None,
             Routes[k].isProtected)
  {
    var route := Routes[k];
    var segs := Instantiate(route.pattern, id);
    RoutesWellFormed(k);
    CanonicalPathSegments(route.pattern, id);
    MatchSelects(k, segs);
    ResolveSelected(PathFor(route.pattern, id), segs, k, route);
    ParamOfInstance(route.pattern, id);
  }

  /** A pathname whose segments match route `k` renders route `k`'s page,
      behind its guard if it has one, with `:id` bound to the segment at
      the parameter's place. */
  lemma ResolveRendersMatch(path: string, k: nat)
    requires k < |Routes| && Segments(path).Some?
    requires Matches(Routes[k].pattern, Segments(path).value)
    ensures Resolve(path) ==
      Render(Routes[k].page, ParamOf(Routes[k].pattern, Segments(path).value), Routes[k].isProtected)
  {
    var segs := Segments(path).value;
    MatchSelects(k, segs);
    ResolveSelected(path, segs, k, Routes[k]);
  }

  /** Resolve renders the route that the segments select. */
  lemma ResolveSelected(path: string, segs: seq<string>, k: nat, route: Route)
    requires Segments(path) == Some(segs) && FirstMatch(Routes, segs) == Some(k)
    requires k < |Routes| && route == Routes[k]
    ensures Resolve(path) == Render(route.page, ParamOf(route.pattern, segs), route.isProtected)
  {
  }

  /** On canonical pathnames the layout agrees with the page: padded
      exactly for About, Privacy and AuthSuccess. */
  lemma LayoutOfCanonicalPath(k: nat, id: string)
    requires k < |Routes|
    ensures IsFullPageRoute(PathFor(Routes[k].pattern, id)) <==>
      Routes[k].page !in {About, Privacy, AuthSuccess}
  {
    if 2 <= k <= 4 {
      PaddedCanonicalPath(k, id);
    } else {
      FullWidthCanonicalPath(k, id);
    }
  }

  lemma FullWidthCanonicalPath(k: nat, id: string)
    requires k < |Routes| && !(2 <= k <= 4)
    ensures IsFullPageRoute(PathFor(Routes[k].pattern, id))
  {
    var path := PathFor(Routes[k].pattern, id);
    if k == 0 {
      assert path == FullPagePaths[0];
    } else if k == 1 {
      SingleLiteralPath("login", id);
      assert path == FullPagePaths[1];
    } else if k == 5 {
      SingleLiteralPath("dashboard", id);
      assert path == FullPagePaths[2];
    } else if k == 6 {
      SingleLiteralPath("create", id);
      assert path == FullPagePaths[3];
    } else if k == 7 {
      BlogEditPath(id);
    } else if k == 8 {
      BlogDetailPath(id);
    } else {
      SingleLiteralPath("profile", id);
      assert path == FullPagePaths[4];
    }
  }

  lemma PaddedCanonicalPath(k: nat, id: string)
    requires 2 <= k <= 4
    ensures !IsFullPageRoute(PathFor(Routes[k].pattern, id))
  {
    var path := PathFor(Routes[k].pattern, id);
    if k == 2 {
      SingleLiteralPath("about", id);
      assert path[1] == 'a';
    } else if k == 3 {
      SingleLiteralPath("privacy", id);
      assert path[1] == 'p' && path[3] == 'i';
    } else {
      AuthSuccessPath(id);
      assert |path| == 13;
    }
    assert path[1] != "/blog/"[1];
  }

  lemma SingleLiteralPath(name: string, id: string)
    ensures PathFor([Lit(name)], id) == "/" + name
  {
    assert Instantiate([Lit(name)], id) == [name];
  }

  lemma AuthSuccessPath(id: string)
    ensures PathFor(Routes[4].pattern, id) == "/auth/success"
  {
    TwoLiteralPath("auth", "success", id);
  }

  lemma TwoLiteralPath(first: string, second: string, id: string)
    ensures PathFor([Lit(first), Lit(second)], id) == "/" + first + "/" + second
  {
    var p: seq<Segment> := [Lit(first), Lit(second)];
    assert p[1..] == [Lit(second)];
    assert Instantiate(p[1..], id) == [second];
    assert Instantiate(p, id) == [first, second];
    assert [first, second][1..] == [second];
    assert JoinWithSlash([first, second]) == first + "/" + second;
  }

  lemma BlogEditPath(id: string)
    ensures PathFor(Routes[7].pattern, id) == "/blog/" + id + "/edit"
  {
    var p: seq<Segment> := [Lit("blog"), Param, Lit("edit")];
    assert p[1..][1..] == [Lit("edit")] && p[1..][1..][1..] == [];
    assert Instantiate(p[1..][1..], id) == ["edit"];
    assert Instantiate(p[1..], id) == [id, "edit"];
    assert Instantiate(p, id) == ["blog", id, "edit"];
    var parts := ["blog", id, "edit"];
    assert parts[1..] == [id, "edit"] && parts[1..][1..] == ["edit"];
    assert JoinWithSlash(parts[1..]) == id + "/" + "edit";
  }

  lemma BlogDetailPath(id: string)
    ensures PathFor(Routes[8].pattern, id) == "/blog/" + id
  {
    assert Instantiate(Routes[8].pattern, id) == ["blog", id];
    assert JoinWithSlash(["blog", id]) == "blog" + "/" + id;
  }

  /** The post pages: `/blog/<id>/edit` renders EditBlog and `/blog/<id>`
      renders BlogDetail, both behind the guard, so the unauthenticated
      read path of BlogDetail is reachable only if the guard lets
      signed-out visitors through. */
  lemma BlogPagesAreProtected(id: string)
    requires id != "" && '/' !in id
    ensures Resolve("/blog/" + id + "/edit") == Render(EditBlog, Some(id), true)
    ensures Resolve("/blog/" + id) == Render(BlogDetail, Some(id), true)
  {
    RouteRoundTrip(7, id);
    BlogEditPath(id);
    RouteRoundTrip(8, id);
    BlogDetailPath(id);
  }

  /** `/blog` and `/blog/` name no post: both hit the catch-all, although
      `/blog/` is laid out full-width as a post page would be. */
  lemma BlogWithoutIdRedirects()
    ensures Resolve("/blog") == Redirect("/", true)
    ensures Resolve("/blog/") == Redirect("/", true)
    ensures !IsFullPageRoute("/blog") && IsFullPageRoute("/blog/")
  {
    BlogSegments();
    NoRouteForBlog();
    BlogLayout();
  }

  lemma BlogSegments()
    ensures Segments("/blog") == Some(["blog"])
    ensures Segments("/blog/") == Some(["blog"])
  {
    IndexOfAbsent("blog", '/');
    assert "blog"[..4] == "blog";
    TrailingSlashSegments(["blog"]);
    assert "/" + JoinWithSlash(["blog"]) + "/" == "/blog/";
  }

  lemma BlogLayout()
    ensures !IsFullPageRoute("/blog") && IsFullPageRoute("/blog/")
  {
    assert "/blog"[1] == 'b';
  }

  lemma NoRouteForBlog()
    ensures FirstMatch(Routes, ["blog"]) == None
  {
    var segs := ["blog"];
    forall j | 0 <= j < |Routes| ensures !Matches(Routes[j].pattern, segs) {
      if |Routes[j].pattern| == 1 {
        assert Routes[j].pattern[0].Lit? && Routes[j].pattern[0].name != "blog";
      }
    }
  }

  /** Joining one more, empty, part appends a '/'. */
  lemma {:induction false} JoinAppendEmpty(parts: seq<string>)
    requires |parts| >= 1
    ensures JoinWithSlash(parts + [""]) == JoinWithSlash(parts) + "/"
    decreases |parts|
  {
    if |parts| == 1 {
      assert (parts + [""])[1..] == [""];
    } else {
      assert (parts + [""])[1..] == parts[1..] + [""];
      JoinAppendEmpty(parts[1..]);
    }
  }

  /** A trailing slash leaves the segments of a canonical pathname
      unchanged. */
  lemma SegmentsIgnoreTrailingSlash(pattern: seq<Segment>, id: string)
    requires pattern != [] && WellFormed(pattern)
    requires id != "" && '/' !in id
    ensures Segments(PathFor(pattern, id) + "/") == Segments(PathFor(pattern, id))
  {
    var segs := Instantiate(pattern, id);
    CanonicalPathSegments(pattern, id);
    InstanceClean(pattern, id);
    assert PathFor(pattern, id) == "/" + JoinWithSlash(segs);
    TrailingSlashSegments(segs);
  }

  /** Joined segments with a '/' before and after split back into the
      segments when none is empty or holds a '/'. */
  lemma TrailingSlashSegments(segs: seq<string>)
    requires |segs| >= 1
    requires forall j :: 0 <= j < |segs| ==> segs[j] != "" && '/' !in segs[j]
    ensures Segments("/" + JoinWithSlash(segs) + "/") == Some(segs)
  {
    var body := JoinWithSlash(segs) + "/";
    var path := "/" + JoinWithSlash(segs) + "/";
    assert path == "/" + body && path[1..] == body;
    SplitTrailingSlash(segs);
    DropOneEmpty(segs);
  }

  lemma SplitTrailingSlash(segs: seq<string>)
    requires |segs| >= 1
    requires forall j :: 0 <= j < |segs| ==> '/' !in segs[j]
    ensures SplitOnSlash(JoinWithSlash(segs) + "/") == segs + [""]
  {
    NoSlashAppendEmpty(segs);
    JoinAppendEmpty(segs);
    SplitJoin(segs + [""]);
  }

  lemma DropOneEmpty(segs: seq<string>)
    requires |segs| >= 1 && segs[|segs| - 1] != ""
    ensures DropTrailingEmpty(segs + [""]) == segs
  {
    assert (segs + [""])[..|segs|] == segs;
  }

  /** The segments of an instantiated well-formed pattern are non-empty
      and free of '/'. */
  lemma InstanceClean(pattern: seq<Segment>, id: string)
    requires WellFormed(pattern) && id != "" && '/' !in id
    ensures forall j :: 0 <= j < |Instantiate(pattern, id)| ==>
      Instantiate(pattern, id)[j] != "" && '/' !in Instantiate(pattern, id)[j]
  {
    forall j | 0 <= j < |Instantiate(pattern, id)|
      ensures Instantiate(pattern, id)[j] != "" && '/' !in Instantiate(pattern, id)[j]
    {
      InstantiateAt(pattern, id, j);
    }
  }

  lemma NoSlashAppendEmpty(segs: seq<string>)
    requires forall j :: 0 <= j < |segs| ==> '/' !in segs[j]
    ensures forall p :: p in segs + [""] ==> '/' !in p
  {
    forall p | p in segs + [""] ensures '/' !in p {
      if p != "" {
        var j :| 0 <= j < |segs| && segs[j] == p;
      }
    }
  }

  /** The router looks at a pathname only through its segments. */
  lemma ResolveBySegments(p: string, q: string)
    requires Segments(p) == Segments(q)
    ensures Resolve(p) == Resolve(q)
  {
  }

  /** A trailing slash does not change the route: every route other than
      the root one is still chosen, with the same `:id`, when its canonical
      pathname ends in '/'. */
  lemma TrailingSlashSameRoute(k: nat, id: string)
    requires 0 < k < |Routes|
    requires id != "" && '/' !in id
    ensures Resolve(PathFor(Routes[k].pattern, id) + "/") == Resolve(PathFor(Routes[k].pattern, id))
  {
    var pattern := Routes[k].pattern;
    RoutesWellFormed(k);
    assert pattern != [];
    SegmentsIgnoreTrailingSlash(pattern, id);
    ResolveBySegments(PathFor(pattern, id) + "/", PathFor(pattern, id));
  }

  /** The layout is decided on the raw pathname, the route on its segments:
      `/login/` renders Login, as `/login` does, but gets the padded layout
      where `/login` is full-width. */
  lemma TrailingSlashPadsLogin(id: string)
    requires id != "" && '/' !in id
    ensures PathFor(Routes[1].pattern, id) == "/login"
    ensures Resolve(PathFor(Routes[1].pattern, id) + "/") == Render(Login, None, false)
    ensures IsFullPageRoute("/login") && !IsFullPageRoute("/login/")
  {
    LoginRoute(id);
    LoginPath(id);
  }

  lemma LoginRoute(id: string)
    requires id != "" && '/' !in id
    ensures Resolve(PathFor(Routes[1].pattern, id) + "/") == Render(Login, None, false)
  {
    RouteRoundTrip(1, id);
    TrailingSlashSameRoute(1, id);
  }

  lemma LoginPath(id: string)
    ensures PathFor(Routes[1].pattern, id) == "/login"
    ensures IsFullPageRoute("/login") && !IsFullPageRoute("/login/")
  {
    assert PathFor(Routes[1].pattern, id) == "/login" == FullPagePaths[1];
    assert "/login/"[1] != "/blog/"[1];
  }
}
