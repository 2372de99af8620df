// The route guard (components/layouts/AuthGuard.tsx) and the part of the
// route table (router.tsx) that says which guard sits on which path.
module AuthGuard {
  import opened Types
  import opened Text

  /** What the guard renders: its children, or a redirect to a path. */
  datatype Decision = Render | Redirect(to: string)

  /** The dashboard each role is sent to when it may not enter a guarded route. */
  function Home(role: Role): string
  {
    match role
    case Admin => "/admin/dashboard"
    case Partner => "/partner/dashboard"
    case Rider => "/rider/dashboard"
    case Customer => "/feed"
  }

  /**
   * The guard: with no user, the login page; with `allowedRoles` given and
   * the user's role not in it (an empty list admits nobody), the role's
   * home; otherwise the children.
   */
  function Guard(user: Option<Role>, allowedRoles: Option<seq<Role>>): (r: Decision)
    ensures user.None? ==> r == Redirect("/login")
    ensures user.Some? ==> (r == Render <==> allowedRoles.None? || user.value in allowedRoles.value)
    ensures user.Some? && r.Redirect? ==> r.to == Home(user.value)
  {
    if user.None? then Redirect("/login")
    else if allowedRoles.Some? && user.value !in allowedRoles.value then
      if user.value == Admin && Admin !in allowedRoles.value then Redirect("/admin/dashboard")
      else if user.value == Partner && Partner !in allowedRoles.value then Redirect("/partner/dashboard")
      else if user.value == Rider && Rider !in allowedRoles.value then Redirect("/rider/dashboard")
      else Redirect("/feed")
    else Render
  }

  // ---- the route table ----

  /** How a path is protected: not at all, by a guard with no roles, or by one with roles. */
  datatype Access = Public | SignedIn | OnlyRoles(roles: seq<Role>)

  predicate StartsWith(s: string, prefix: string)
  {
    |prefix| <= |s| && s[..|prefix|] == prefix
  }

  /** The path is the section root or a page below it. */
  predicate Under(path: string, section: string)
  {
    path == section || StartsWith(path, section + "/")
  }

  /** A route parameter: one non-empty segment. */
  predicate Segment(s: string)
  {
    |s| > 0 && Free(s, '/')
  }

  /** `/tracking/:id`. */
  predicate TrackingPath(path: string)
  {
    StartsWith(path, "/tracking/") && Segment(path[10..])
  }

  /** `/cook/:orderId/:itemId`. */
  predicate CookPath(path: string)
  {
    StartsWith(path, "/cook/")
    && exists i :: 6 <= i < |path| && path[i] == '/' && Segment(path[6..i]) && Segment(path[i + 1..])
  }

  /**
   * The guard on each path: the partner, admin and rider sections admit only
   * their role; favourites, checkout, tracking, cook mode, profile, wallet
   * and notifications admit any signed-in user; every other path is public.
   */
  function AccessOf(path: string): Access
  {
    if Under(path, "/partner") then OnlyRoles([Partner])
    else if Under(path, "/admin") then OnlyRoles([Admin])
    else if Under(path, "/rider") then OnlyRoles([Rider])
    else if path in ["/favorites", "/checkout", "/profile", "/wallet", "/notifications"]
      || TrackingPath(path) || CookPath(path) then SignedIn
    else Public
  }

  /** What visiting a path gives: public paths render, guarded ones ask their guard. */
  function Visit(user: Option<Role>, path: string): Decision
  {
    match AccessOf(path)
    case Public => Render
    case SignedIn => Guard(user, None)
    case OnlyRoles(roles) => Guard(user, Some(roles))
  }

  /** A path whose second character is none of p, a and r lies outside the role sections. */
  lemma OutsideRoleSections(path: string)
    requires |path| > 1 && path[1] != 'p' && path[1] != 'a' && path[1] != 'r'
    ensures !Under(path, "/partner") && !Under(path, "/admin") && !Under(path, "/rider")
  {
    assert path != "/partner" && path != "/admin" && path != "/rider" by {
      assert "/partner"[1] == 'p' && "/admin"[1] == 'a' && "/rider"[1] == 'r';
    }
    if |path| >= 9 { assert path[..9][1] == path[1]; assert "/partner/"[1] == 'p'; }
    if |path| >= 7 { assert path[..7][1] == path[1]; assert "/admin/"[1] == 'a'; }
    if |path| >= 7 { assert path[..7][1] == path[1]; assert "/rider/"[1] == 'r'; }
  }

  /**
   * Only a tracking path with its id filled in reaches the guarded
   * tracking page; an empty id falls to the public routes.
   */
  lemma TrackingRoutes(id: string)
    ensures AccessOf("/tracking/" + id) == if Segment(id) then SignedIn else Public
  {
    var path := "/tracking/" + id;
    assert path[1] == 't';
    OutsideRoleSections(path);
    assert path !in ["/favorites", "/checkout", "/profile", "/wallet", "/notifications"] by {
      assert "/favorites"[1] == 'f' && "/checkout"[1] == 'c' && "/profile"[1] == 'p';
      assert "/wallet"[1] == 'w' && "/notifications"[1] == 'n';
    }
    assert !StartsWith(path, "/cook/") by { assert "/cook/"[1] == 'c'; }
    assert path[..10] == "/tracking/" && path[10..] == id;
  }

  /** A cook path needs both its order id and its item id. */
  lemma CookRoutes(orderId: string, itemId: string)
    requires Segment(orderId)
    ensures AccessOf("/cook/" + orderId) == Public
    ensures AccessOf("/cook/" + orderId + "/" + itemId) == if Segment(itemId) then SignedIn else Public
  {
    var short, full := "/cook/" + orderId, "/cook/" + orderId + "/" + itemId;
    assert short[1] == 'c' && full[1] == 'c';
    OutsideRoleSections(short);
    OutsideRoleSections(full);
    assert short !in ["/favorites", "/checkout", "/profile", "/wallet", "/notifications"] by {
      assert "/favorites"[1] == 'f' && "/checkout"[2] == 'h' && "/profile"[1] == 'p';
      assert "/wallet"[1] == 'w' && "/notifications"[1] == 'n' && short[2] == 'o';
    }
    assert full !in ["/favorites", "/checkout", "/profile", "/wallet", "/notifications"] by {
      assert "/favorites"[1] == 'f' && "/checkout"[2] == 'h' && "/profile"[1] == 'p';
      assert "/wallet"[1] == 'w' && "/notifications"[1] == 'n' && full[2] == 'o';
    }
    assert !StartsWith(short, "/tracking/") && !StartsWith(full, "/tracking/") by {
      assert "/tracking/"[1] == 't';
    }
    assert short[6..] == orderId;
    assert !CookPath(short) by {
      forall i | 6 <= i < |short| ensures short[i] != '/' {
        assert short[i] == orderId[i - 6];
      }
    }
    var k := 6 + |orderId|;
    assert full[k] == '/' && full[6..k] == orderId && full[k + 1..] == itemId;
    if !Segment(itemId) {
      assert !CookPath(full) by {
        forall i | 6 <= i < |full| && full[i] == '/' ensures !(Segment(full[6..i]) && Segment(full[i + 1..])) {
          if i > k {
            assert full[6..i][k - 6] == '/';
          }
        }
      }
    }
  }

  lemma HomeAccess(role: Role)
    ensures AccessOf(Home(role)) == match role
      case Admin => OnlyRoles([Admin])
      case Partner => OnlyRoles([Partner])
      case Rider => OnlyRoles([Rider])
      case Customer => Public
  {
    var h := Home(role);
    match role
    case Admin =>
      assert !Under(h, "/partner") by { assert h[..9][1] == 'a'; }
      assert Under(h, "/admin") by { assert h[..7] == "/admin/"; }
    case Partner =>
      assert Under(h, "/partner") by { assert h[..9] == "/partner/"; }
    case Rider =>
      assert !Under(h, "/partner") by { assert h[..9][1] == 'r'; }
      assert !Under(h, "/admin") by { assert h[..7][1] == 'r'; }
      assert Under(h, "/rider") by { assert h[..7] == "/rider/"; }
    case Customer =>
      assert |h| == 5;
  }

  /**
   * The guard cannot loop: wherever it redirects, the same user is let in,
   * whichever roles the refusing route named.
   */
  lemma RedirectIsEnterable(user: Option<Role>, allowedRoles: Option<seq<Role>>)
    ensures Guard(user, allowedRoles).Redirect? ==> Visit(user, Guard(user, allowedRoles).to) == Render
  {
    if user.Some? {
      HomeAccess(user.value);
    } else {
      assert !StartsWith("/login", "/cook/") by { assert "/login"[..6][1] == 'l'; }
    }
  }

  /** A signed-in user is always let into its own home. */
  lemma HomeIsEnterable(role: Role)
    ensures Visit(Some(role), Home(role)) == Render
  {
    HomeAccess(role);
  }
}
