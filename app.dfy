/**
 * The route tables of the application shell (src/App.tsx): one for wide screens, where
 * every page sits behind a route guard, and one for narrow screens, whose table leaves the
 * catalog and the detail page unguarded. Both tables are mounted at once, whatever the
 * width (the width only decides which one is visible), so the wide table's guard redirects
 * a guest on a narrow screen as well (`Mounted`). A path is given as the router sees it,
 * split into its segments (`/pet/7` is `["pet", "7"]`, `/` is `[]`).
 */
module App {
  import opened Wrappers
  import Text
  import ProtectedRoute

  datatype Page = HomePage | LoginPage | RegisterPage | PetDetailPage | PetFormPage | MyPetsPage | EditPetPage

  /** A pattern segment: literal text, or a parameter such as `:id`. */
  datatype Segment = Literal(text: string) | Param(name: string)

  /** The props of the `ProtectedRoute` wrapping a page. */
  datatype Guard = Guard(requireAuth: bool, redirectTo: string)

  datatype Route = Route(pattern: seq<Segment>, guard: Option<Guard>, page: Page)

  /** What the router shows for a path. */
  datatype Screen = Shows(page: Page) | Redirects(to: string, from: Option<string>, replace: bool) | NothingMatches

  /** A guard written with no props: the guard's defaults. */
  const DefaultGuard: Guard := Guard(ProtectedRoute.DefaultRequireAuth, ProtectedRoute.DefaultRedirectTo)
  const PublicOnly: Guard := Guard(false, "/")

  const LoginRoute: Route := Route([Literal("login")], Some(PublicOnly), LoginPage)
  const RegisterRoute: Route := Route([Literal("register")], Some(PublicOnly), RegisterPage)
  const PublishRoute: Route := Route([Literal("publish")], Some(DefaultGuard), PetFormPage)
  const MyPetsRoute: Route := Route([Literal("my-pets")], Some(DefaultGuard), MyPetsPage)
  const EditRoute: Route := Route([Literal("edit-pet"), Param("id")], Some(DefaultGuard), EditPetPage)

  /** The wide-screen table, in source order. */
  const Desktop: seq<Route> := [
    LoginRoute,
    RegisterRoute,
    Route([], Some(Guard(true, "/login")), HomePage),
    Route([Literal("pet"), Param("id")], Some(Guard(true, "/login")), PetDetailPage),
    PublishRoute,
    MyPetsRoute,
    EditRoute
  ]

  /** The narrow-screen table, in source order. */
  const Mobile: seq<Route> := [
    Route([], None, HomePage),
    Route([Literal("pet"), Param("id")], None, PetDetailPage),
    LoginRoute,
    RegisterRoute,
    PublishRoute,
    MyPetsRoute,
    EditRoute
  ]

  /** A literal matches itself; a parameter matches any non-empty segment. */
  predicate SegmentMatches(p: Segment, s: string)
  {
    match p
    case Literal(t) => s == t
    case Param(_) => s != ""
  }

  predicate Matches(pattern: seq<Segment>, path: seq<string>)
  {
    |pattern| == |path| && forall i :: 0 <= i < |path| ==> SegmentMatches(pattern[i], path[i])
  }

  /** The index of the first route from `k` on whose pattern matches the path. */
  function FirstMatch(table: seq<Route>, path: seq<string>, k: nat): (r: Option<nat>)
    requires k <= |table|
    ensures r.Some? ==> k <= r.value < |table| && Matches(table[r.value].pattern, path)
    ensures r.Some? ==> forall j :: k <= j < r.value ==> !Matches(table[j].pattern, path)
    ensures r.None? ==> forall j :: k <= j < |table| ==> !Matches(table[j].pattern, path)
    decreases |table| - k
  {
    if k == |table| then None
    else if Matches(table[k].pattern, path) then Some(k)
    else FirstMatch(table, path, k + 1)
  }

  /** The pathname the guard records as the origin of a redirect. */
  function Pathname(path: seq<string>): string
  {
    "/" + Text.Join(path, "/")
  }

  /** What one route shows: its page, or what its guard decides. */
  function ScreenFor(route: Route, path: seq<string>, isAuthenticated: bool): Screen
  {
    match route.guard
    case None => Shows(route.page)
    case Some(g) =>
      match ProtectedRoute.Decide(g.requireAuth, g.redirectTo, isAuthenticated, Pathname(path))
      case RenderChildren => Shows(route.page)
      case Navigate(to, from, replace) => Redirects(to, from, replace)
  }

  /** The screen of the first matching route; no screen when no route matches. */
  function Resolve(table: seq<Route>, path: seq<string>, isAuthenticated: bool): (s: Screen)
    ensures s.NothingMatches? <==> forall j :: 0 <= j < |table| ==> !Matches(table[j].pattern, path)
    ensures s.Shows? ==> exists j :: 0 <= j < |table| && Matches(table[j].pattern, path) && table[j].page == s.page
  {
    match FirstMatch(table, path, 0)
    case None => NothingMatches
    case Some(k) => ScreenFor(table[k], path, isAuthenticated)
  }

  /** The (pattern, page) pairs a table declares, whatever their order and guards. */
  function Declared(table: seq<Route>): set<(seq<Segment>, Page)>
  {
    if table == [] then {} else {(table[0].pattern, table[0].page)} + Declared(table[1..])
  }

  lemma {:induction false} DeclaredConcat(a: seq<Route>, b: seq<Route>)
    ensures Declared(a + b) == Declared(a) + Declared(b)
    decreases |a|
  {
    if a == [] {
      assert a + b == b;
    } else {
      assert (a + b)[0] == a[0] && (a + b)[1..] == a[1..] + b;
      DeclaredConcat(a[1..], b);
    }
  }

  lemma DeclaredPair(t: seq<Route>)
    requires |t| == 2
    ensures Declared(t) == {(t[0].pattern, t[0].page), (t[1].pattern, t[1].page)}
  {
    assert Declared(t[1..]) == {(t[1].pattern, t[1].page)} by {
      assert t[1..][0] == t[1] && t[1..][1..] == [];
    }
  }

  /** Both tables declare the same seven paths, each for the same page. */
  lemma SamePaths()
    ensures |Desktop| == |Mobile| == 7
    ensures Declared(Desktop) == Declared(Mobile)
  {
    var auth, tail := Desktop[..2], Desktop[4..];
    var wide, narrow := Desktop[2..4], Mobile[..2];
    assert Desktop == auth + wide + tail;
    assert Mobile == narrow + auth + tail;
    DeclaredConcat(auth + wide, tail);
    DeclaredConcat(auth, wide);
    DeclaredConcat(narrow + auth, tail);
    DeclaredConcat(narrow, auth);
    DeclaredPair(wide);
    DeclaredPair(narrow);
  }

  /** The guard of any route reached on a wide screen renders the page only to the right visitor. */
  predicate GuardedRoute(r: Route)
  {
    r.guard.Some? && (r.guard.value.requireAuth <==> r.page !in {LoginPage, RegisterPage})
  }

  lemma DesktopAllGuarded()
    ensures forall j :: 0 <= j < |Desktop| ==> GuardedRoute(Desktop[j])
  {
    forall j | 0 <= j < |Desktop|
      ensures GuardedRoute(Desktop[j])
    {
      if j == 0 {} else if j == 1 {} else if j == 2 {} else if j == 3 {} else if j == 4 {} else if j == 5 {} else {}
    }
  }

  /**
   * On a wide screen a guest can only see the login and registration pages, and a signed-in
   * visitor never sees them.
   */
  lemma DesktopPagesMatchAuthentication(path: seq<string>, isAuthenticated: bool)
    ensures var s := Resolve(Desktop, path, isAuthenticated);
      s.Shows? ==> (s.page in {LoginPage, RegisterPage} <==> !isAuthenticated)
  {
    DesktopAllGuarded();
  }

  /** On a narrow screen a signed-in visitor never sees the login and registration pages either. */
  lemma MobileHidesAuthPagesWhenSignedIn(path: seq<string>)
    ensures var s := Resolve(Mobile, path, true); s.Shows? ==> s.page !in {LoginPage, RegisterPage}
  {
    match FirstMatch(Mobile, path, 0)
    case None =>
    case Some(k) =>
      if k == 2 || k == 3 {
        assert Mobile[k].guard == Some(PublicOnly);
      }
  }

  /**
   * The narrow-screen table on its own shows the catalog and a listing's detail to
   * everyone; this holds of the table, not of the mounted shell (see `Mounted`).
   */
  lemma MobileBrowsingIsPublic(id: string, isAuthenticated: bool)
    requires id != ""
    ensures RouteFor(true, [], isAuthenticated) == Shows(HomePage)
    ensures RouteFor(true, ["pet", id], isAuthenticated) == Shows(PetDetailPage)
  {
    assert Matches(Mobile[1].pattern, ["pet", id]);
    assert !Matches(Mobile[0].pattern, ["pet", id]);
  }

  /** The table for the screen's width, routed alone: what the two trees evidently mean. */
  function RouteFor(narrow: bool, path: seq<string>, isAuthenticated: bool): Screen
  {
    Resolve(if narrow then Mobile else Desktop, path, isAuthenticated)
  }

  /**
   * The shell as written: both trees are mounted whatever the width, so a redirect either
   * one renders is followed (the narrow tree's last, as it comes later); without one, the
   * visible tree's screen is shown.
   */
  function Mounted(narrow: bool, path: seq<string>, isAuthenticated: bool): (s: Screen)
    ensures s.Redirects? <==>
      Resolve(Desktop, path, isAuthenticated).Redirects? || Resolve(Mobile, path, isAuthenticated).Redirects?
    ensures !s.Redirects? ==> s == RouteFor(narrow, path, isAuthenticated)
  {
    var wide := Resolve(Desktop, path, isAuthenticated);
    var small := Resolve(Mobile, path, isAuthenticated);
    if small.Redirects? then small
    else if wide.Redirects? then wide
    else RouteFor(narrow, path, isAuthenticated)
  }

  /** As written, a guest on a narrow screen asking for the catalog is sent to the login page. */
  lemma MountedGuestCannotBrowse()
    ensures RouteFor(true, [], false) == Shows(HomePage)
    ensures Mounted(true, [], false) == Redirects("/login", Some("/"), true)
  {
    MobileBrowsingIsPublic("1", false);
    DesktopHomeNeedsLogin();
  }

  /** For a signed-in visitor, or off the two browsing paths, mounting both trees changes nothing. */
  lemma MountedAgreesElsewhere(narrow: bool, path: seq<string>, isAuthenticated: bool)
    requires isAuthenticated || (path != [] && !Matches([Literal("pet"), Param("id")], path))
    ensures Mounted(narrow, path, isAuthenticated) == RouteFor(narrow, path, isAuthenticated)
  {
    if path != [] && !Matches([Literal("pet"), Param("id")], path) {
      TablesDifferOnlyOnBrowsing(path, isAuthenticated);
    } else {
      DesktopAllGuarded();
      match FirstMatch(Desktop, path, 0)
      case None =>
      case Some(k) =>
        assert Desktop[k].guard.Some?;
    }
  }

  /** On a wide screen a guest asking for the catalog is sent to the login page, remembering `/`. */
  lemma DesktopHomeNeedsLogin()
    ensures Resolve(Desktop, [], false) == Redirects("/login", Some("/"), true)
  {
    assert !Matches(Desktop[0].pattern, []);
    assert !Matches(Desktop[1].pattern, []);
    assert Matches(Desktop[2].pattern, []);
    assert FirstMatch(Desktop, [], 2) == Some(2);
    assert FirstMatch(Desktop, [], 0) == Some(2);
    assert Text.Join([], "/") == "";
    assert Pathname([]) == "/";
    assert Desktop[2].guard == Some(Guard(true, "/login"));
    assert ScreenFor(Desktop[2], [], false) == Redirects("/login", Some("/"), true);
  }

  /** Every path other than the catalog and a detail page leads to the same screen on both tables. */
  lemma TablesDifferOnlyOnBrowsing(path: seq<string>, isAuthenticated: bool)
    requires path != [] && !Matches([Literal("pet"), Param("id")], path)
    ensures Resolve(Desktop, path, isAuthenticated) == Resolve(Mobile, path, isAuthenticated)
  {
    assert !Matches(Desktop[2].pattern, path) && !Matches(Mobile[0].pattern, path);
    assert !Matches(Desktop[3].pattern, path) && !Matches(Mobile[1].pattern, path);
    if Matches(LoginRoute.pattern, path) {
      assert FirstMatch(Desktop, path, 0) == Some(0);
      assert FirstMatch(Mobile, path, 2) == Some(2);
    } else if Matches(RegisterRoute.pattern, path) {
      assert FirstMatch(Desktop, path, 1) == Some(1);
      assert FirstMatch(Mobile, path, 3) == Some(3);
    } else {
      assert FirstMatch(Desktop, path, 0) == FirstMatch(Desktop, path, 4);
      assert FirstMatch(Mobile, path, 0) == FirstMatch(Mobile, path, 4);
      SharedTail(path, 4);
    }
  }

  /** From the publish route on, the two tables are the same list, so they pick the same route. */
  lemma {:induction false} SharedTail(path: seq<string>, k: nat)
    requires 4 <= k <= 7
    ensures FirstMatch(Desktop, path, k) == FirstMatch(Mobile, path, k)
    ensures FirstMatch(Desktop, path, k).Some? ==> Desktop[FirstMatch(Desktop, path, k).value] == Mobile[FirstMatch(Desktop, path, k).value]
    decreases 7 - k
  {
    if k < 7 {
      assert Desktop[k] == Mobile[k];
      SharedTail(path, k + 1);
    }
  }
}
