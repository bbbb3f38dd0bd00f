/** The route table and its two guards, decided by the stored `isLogged` flag. */
module App {
  import opened Common
  import Signup

  /** The pages a route can show. */
  datatype Page = LoginPage | SignupPage | DashboardPanel

  /** What a route element does: show a page, or `<Navigate to=... />`. */
  datatype Outcome = Show(page: Page) | Redirect(to: string, replace: bool)

  /** `localStorage.getItem("isLogged") === "true"`: only that exact string counts. */
  predicate IsLogged(flag: Option<string>)
  {
    flag == Some("true")
  }

  /** `ProtectedRoute`: the child for a logged-in user, otherwise a push to `/login`. */
  function ProtectedRoute(flag: Option<string>, child: Page): (o: Outcome)
    ensures o == Show(child) <==> flag == Some("true")
    ensures o.Redirect? <==> flag != Some("true")
    ensures o.Redirect? ==> o == Redirect("/login", false)
  {
    if IsLogged(flag) then Show(child) else Redirect("/login", false)
  }

  /** `CatchAllRoute`: always a replacing redirect, to the dashboard or to login. */
  function CatchAllRoute(flag: Option<string>): (o: Outcome)
    ensures o.Redirect? && o.replace
    ensures o.to == "/dashboard" <==> flag == Some("true")
    ensures o.to == "/login" <==> flag != Some("true")
  {
    Redirect(if IsLogged(flag) then "/dashboard" else "/login", true)
  }

  /** The route table: two public pages, one guarded page, and the catch-all
      for `/` and every other path. */
  function Resolve(path: string, flag: Option<string>): (o: Outcome)
    ensures path == "/login" || path == "/signup" ==> o.Show?
    ensures o == Show(DashboardPanel) <==> path == "/dashboard" && IsLogged(flag)
    ensures o.Redirect? ==> o.to == "/login" || o.to == "/dashboard"
    ensures o.Redirect? && o.to == "/dashboard" ==> IsLogged(flag) && path != "/dashboard"
  {
    if path == "/login" then Show(LoginPage)
    else if path == "/signup" then Show(SignupPage)
    else if path == "/dashboard" then ProtectedRoute(flag, DashboardPanel)
    else CatchAllRoute(flag)
  }

  /** Following redirects for at most `steps` hops; `None` when still redirecting. */
  function Follow(path: string, flag: Option<string>, steps: nat): Option<Page>
    decreases steps
  {
    match Resolve(path, flag)
    case Show(p) => Some(p)
    case Redirect(to, _) => if steps == 0 then None else Follow(to, flag, steps - 1)
  }

  /** No path loops: every path shows a page after at most one redirect, and
      the dashboard panel is reached exactly when the flag says logged in and
      the path is not one of the two public pages. */
  lemma EveryPathSettles(path: string, flag: Option<string>)
    ensures Follow(path, flag, 1).Some?
    ensures Follow(path, flag, 1) == Some(DashboardPanel) <==>
      IsLogged(flag) && path != "/login" && path != "/signup"
    ensures !IsLogged(flag) && path != "/signup" ==> Follow(path, flag, 1) == Some(LoginPage)
  {
    var o := Resolve(path, flag);
    if o.Redirect? {
      assert o.to == "/login" || o.to == "/dashboard";
      assert Resolve(o.to, flag).Show?;
    }
  }

  /** The guarded page needs the flag; the two public pages do not. */
  lemma OnlyDashboardIsGuarded(flag: Option<string>)
    ensures Resolve("/dashboard", flag) == Show(DashboardPanel) <==> IsLogged(flag)
    ensures Resolve("/login", flag).Show? && Resolve("/signup", flag).Show?
    ensures Resolve("/", flag) == CatchAllRoute(flag)
  {
  }

  /** After registering, the page navigates to `/superlogin`, which is no
      route: the catch-all takes it on to `/login` for a logged-out visitor,
      and to the dashboard when the flag is still set. */
  lemma SignupRedirectSettles(flag: Option<string>)
    ensures Resolve(Signup.AfterSignupPath, flag) == CatchAllRoute(flag)
    ensures !IsLogged(flag) ==> Follow(Signup.AfterSignupPath, flag, 1) == Some(LoginPage)
    ensures IsLogged(flag) ==> Follow(Signup.AfterSignupPath, flag, 1) == Some(DashboardPanel)
  {
    EveryPathSettles(Signup.AfterSignupPath, flag);
  }
}
