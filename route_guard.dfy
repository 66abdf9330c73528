/**
 * The request guard of src/middleware.ts: which response the middleware
 * chooses for a path and the session's user. Route classes are plain
 * string prefixes; the rules are tried in the source's order and the first
 * that applies decides.
 *
 * The session lookup (`updateSession`) and the response objects are not
 * modelled: the user is an input and the response a `Decision`.
 */
module RouteGuard {
  import opened Options

  const ProtectedRoutes: seq<string> := ["/apply", "/dashboard", "/application"]
  const AdminRoutes: seq<string> := ["/admin"]
  const AuthRoutes: seq<string> := ["/login", "/register"]

  /** `routes.some((r) => path.startsWith(r))`. */
  function SomePrefix(routes: seq<string>, path: string): (b: bool)
    ensures b <==> exists i :: 0 <= i < |routes| && routes[i] <= path
  {
    if |routes| == 0 then false
    else if routes[0] <= path then true
    else
      var b := SomePrefix(routes[1..], path);
      assert forall i :: 1 <= i < |routes| ==> routes[i] == routes[1..][i - 1];
      assert b ==> exists i :: 0 <= i < |routes| && routes[i] <= path by {
        if b {
          var j :| 0 <= j < |routes[1..]| && routes[1..][j] <= path;
          assert routes[j + 1] <= path;
        }
      }
      b
  }

  predicate IsProtected(path: string) { SomePrefix(ProtectedRoutes, path) }
  predicate IsAdmin(path: string) { SomePrefix(AdminRoutes, path) }
  predicate IsAuth(path: string) { SomePrefix(AuthRoutes, path) }

  /** A metadata `role` entry: missing (`undefined`), `null`, or a string. */
  datatype Meta = Absent | Null | Text(s: string)

  /** The parts of the session user the guard reads. */
  datatype User = User(appRole: Meta, userRole: Meta)

  /** `app_metadata?.role ?? user_metadata?.role`: `??` falls back on `undefined` and `null` only. */
  function Role(u: User): (r: Meta)
    ensures u.appRole.Text? ==> r == u.appRole
    ensures !u.appRole.Text? ==> r == u.userRole
  {
    match u.appRole
    case Absent => u.userRole
    case Null => u.userRole
    case Text(_) => u.appRole
  }

  /** `role !== 'ADMIN'` fails for exactly the users whose decisive role is the string ADMIN. */
  function IsAdminUser(u: User): (b: bool)
    ensures u.appRole.Text? ==> (b <==> u.appRole.s == "ADMIN")
    ensures !u.appRole.Text? ==> (b <==> u.userRole == Text("ADMIN"))
  {
    Role(u) == Text("ADMIN")
  }

  /** The middleware's response. */
  datatype Decision =
    | RedirectToLogin(redirectTo: string)  // `/login?redirectTo=<pathname>`
    | RedirectToDashboard
    | RedirectToHome
    | PassThrough                          // the session response, unchanged

  function Middleware(pathname: string, user: Option<User>): (r: Decision)
    ensures r.RedirectToLogin? <==> (IsProtected(pathname) || IsAdmin(pathname)) && user.None?
    ensures r.RedirectToLogin? ==> r.redirectTo == pathname
    ensures r == RedirectToDashboard <==> IsAuth(pathname) && user.Some?
    ensures r == RedirectToHome <==> IsAdmin(pathname) && user.Some? && !IsAdminUser(user.value)
  {
    if (IsProtected(pathname) || IsAdmin(pathname)) && user.None? then
      RedirectToLogin(pathname)
    else if IsAuth(pathname) && user.Some? then
      (assert !IsAdmin(pathname) by { AuthRoutesAreNotGuarded(pathname); }
      RedirectToDashboard)
    else if IsAdmin(pathname) && user.Some? && !IsAdminUser(user.value) then
      RedirectToHome
    else
      PassThrough
  }

  // ── Classification ──────────────────────────────────────────────────

  /** A route class matches every path that extends one of its prefixes. */
  lemma PrefixClassification(path: string, suffix: string)
    ensures IsProtected(path) ==> IsProtected(path + suffix)
    ensures IsAdmin(path) ==> IsAdmin(path + suffix)
    ensures IsAuth(path) ==> IsAuth(path + suffix)
  {
    forall routes: seq<string>, i | 0 <= i < |routes| && routes[i] <= path
      ensures routes[i] <= path + suffix
    {
      assert (path + suffix)[..|routes[i]|] == path[..|routes[i]|];
    }
  }

  /** Prefixes, not path segments: `/administrator` is an admin route and `/applications` a protected one. */
  lemma PrefixesAreNotSegments()
    ensures IsAdmin("/administrator")
    ensures IsProtected("/applications")
    ensures !IsAdmin("/") && !IsProtected("/") && !IsAuth("/")
  {
    assert AdminRoutes[0] <= "/administrator";
    assert ProtectedRoutes[2] <= "/applications";
  }

  /** No path is both an auth route and a guarded one. */
  lemma AuthRoutesAreNotGuarded(path: string)
    ensures IsAuth(path) ==> !IsProtected(path) && !IsAdmin(path)
  {
    if IsAuth(path) {
      var i :| 0 <= i < |AuthRoutes| && AuthRoutes[i] <= path;
      assert path[1] == AuthRoutes[i][1];
      assert path[1] == 'l' || path[1] == 'r';
      forall j | 0 <= j < |ProtectedRoutes| ensures !(ProtectedRoutes[j] <= path) {
        assert ProtectedRoutes[j][1] == 'a' || ProtectedRoutes[j][1] == 'd';
      }
      assert !(AdminRoutes[0] <= path) by {
        assert AdminRoutes[0][1] == 'a';
      }
    }
  }

  // ── The outcomes ────────────────────────────────────────────────────

  /** The request passes exactly when no redirect rule applies. */
  lemma PassThroughExactly(pathname: string, user: Option<User>)
    ensures Middleware(pathname, user) == PassThrough <==>
      && (user.None? ==> !IsProtected(pathname) && !IsAdmin(pathname))
      && (user.Some? ==> !IsAuth(pathname) && (IsAdmin(pathname) ==> IsAdminUser(user.value)))
  {
  }

  /** An unauthenticated request is sent to the login page or passes; never to `/` or `/dashboard`. */
  lemma AnonymousNeverSentHomeOrDashboard(pathname: string)
    ensures Middleware(pathname, None).RedirectToLogin? || Middleware(pathname, None) == PassThrough
  {
  }

  /** An authenticated request is never sent to the login page. */
  lemma SignedInNeverSentToLogin(pathname: string, u: User)
    ensures !Middleware(pathname, Some(u)).RedirectToLogin?
  {
  }

  /** An authenticated administrator reaches every admin path. */
  lemma AdminPasses(pathname: string, u: User)
    requires IsAdmin(pathname) && IsAdminUser(u)
    ensures Middleware(pathname, Some(u)) == PassThrough
  {
    AuthRoutesAreNotGuarded(pathname);
  }

  /**
   * Every redirect lands on a page the same user passes: the login page for
   * the anonymous, the dashboard and `/` for the signed-in. So a failed role
   * check cannot start the `/admin`, `/login`, `/dashboard` chain.
   */
  lemma RedirectTargetsPass(user: Option<User>)
    ensures user.None? ==> Middleware("/login", user) == PassThrough
    ensures user.Some? ==> Middleware("/dashboard", user) == PassThrough
    ensures Middleware("/", user) == PassThrough
  {
    assert AuthRoutes[0] <= "/login";
    assert !IsAdmin("/dashboard") && !IsAuth("/dashboard") by {
      assert AdminRoutes[0][1] != "/dashboard"[1];
      assert AuthRoutes[0][1] != "/dashboard"[1] && AuthRoutes[1][1] != "/dashboard"[1];
    }
    assert !IsProtected("/login") && !IsAdmin("/login") by {
      AuthRoutesAreNotGuarded("/login");
    }
    PrefixesAreNotSegments();
  }

  // ── The role ────────────────────────────────────────────────────────

  /** An `app_metadata` role that is a string decides, even the empty string; `null` and missing fall back. */
  lemma RoleFallback(s: string, other: Meta)
    ensures Role(User(Text(s), other)) == Text(s)
    ensures Role(User(Null, other)) == other && Role(User(Absent, other)) == other
    ensures s != "ADMIN" ==> !IsAdminUser(User(Text(s), Text("ADMIN")))
  {
  }

  /** A user with no role anywhere is not an administrator and is sent home from admin paths. */
  lemma NoRoleSentHome(pathname: string)
    requires IsAdmin(pathname)
    ensures Middleware(pathname, Some(User(Absent, Absent))) == RedirectToHome
    ensures Middleware(pathname, Some(User(Null, Null))) == RedirectToHome
  {
  }
}
