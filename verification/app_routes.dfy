/** The application's route table: `/login`, `/`, `/posts`, `/admin` and a
    catch-all, each mapped to a page or to a redirect, with the guard in
    front of the three protected pages. */
module Routes {
  import opened Common
  import opened Guard

  datatype Page = LoginPage | HomePage | PostsPage | AdminPage

  datatype Outcome = Render(page: Page) | Redirect(to: string)

  const LoginPath: string := "/login"
  const HomePath: string := "/"
  const PostsPath: string := "/posts"
  const AdminPath: string := "/admin"

  /** What a guarded route shows for each guard decision. */
  function Guarded(d: Decision, page: Page): Outcome
  {
    match d
    case RenderChildren => Render(page)
    case RedirectToLogin => Redirect(LoginPath)
    case RedirectToHome => Redirect(HomePath)
  }

  /** `AppRoutes`: the element the router shows for `path`. */
  function AppRoutes(path: string, currentUser: Option<User>, userRole: Option<string>): (r: Outcome)
    ensures r.Redirect? ==> r.to == HomePath || r.to == LoginPath
    ensures path == LoginPath ==> (r == Redirect(HomePath) <==> currentUser.Some?)
    ensures path == LoginPath && currentUser.None? ==> r == Render(LoginPage)
    ensures currentUser.None? && r.Render? ==> r.page == LoginPage
    ensures currentUser.Some? ==> r != Render(LoginPage) && r != Redirect(LoginPath)
    ensures r == Render(AdminPage) ==> path == AdminPath && userRole == Some(AdminRole)
    ensures path !in {LoginPath, HomePath, PostsPath, AdminPath} ==> r == Redirect(HomePath)
  {
    if path == LoginPath then
      if currentUser.Some? then Redirect(HomePath) else Render(LoginPage)
    else if path == HomePath then
      Guarded(PrivateRoute(currentUser, userRole), HomePage)
    else if path == PostsPath then
      Guarded(PrivateRoute(currentUser, userRole), PostsPage)
    else if path == AdminPath then
      Guarded(PrivateRoute(currentUser, userRole, true), AdminPage)
    else
      Redirect(HomePath)
  }

  /** The guard flag each declared route uses: only `/admin` is admin-only. */
  lemma RouteGuards(currentUser: Option<User>, userRole: Option<string>)
    ensures AppRoutes(HomePath, currentUser, userRole) == Guarded(PrivateRoute(currentUser, userRole, false), HomePage)
    ensures AppRoutes(PostsPath, currentUser, userRole) == Guarded(PrivateRoute(currentUser, userRole, false), PostsPage)
    ensures AppRoutes(AdminPath, currentUser, userRole) == Guarded(PrivateRoute(currentUser, userRole, true), AdminPage)
  {
  }

  /** Following redirects from `path`, at most `budget` of them: the page
      finally rendered, or None when the budget runs out first. */
  function Follow(path: string, currentUser: Option<User>, userRole: Option<string>, budget: nat): Option<Page>
    decreases budget
  {
    match AppRoutes(path, currentUser, userRole)
    case Render(p) => Some(p)
    case Redirect(to) => if budget == 0 then None else Follow(to, currentUser, userRole, budget - 1)
  }

  /** Where a visitor ends up, stated without the route table: anonymous
      visitors on the login page, admins on the admin page when they asked
      for it, everybody else on the posts page when they asked for it and
      on the home page otherwise. */
  function Destination(path: string, currentUser: Option<User>, userRole: Option<string>): Page
  {
    if currentUser.None? then LoginPage
    else if path == PostsPath then PostsPage
    else if path == AdminPath && userRole == Some(AdminRole) then AdminPage
    else HomePage
  }

  /** From any path and any session, at most two redirects reach a rendered
      page, and that page is the destination: there are no redirect loops. */
  lemma {:induction false} RedirectsTerminate(path: string, currentUser: Option<User>, userRole: Option<string>)
    ensures Follow(path, currentUser, userRole, 2) == Some(Destination(path, currentUser, userRole))
  {
    var first := AppRoutes(path, currentUser, userRole);
    if first.Redirect? {
      var second := AppRoutes(first.to, currentUser, userRole);
      if second.Redirect? {
        assert currentUser.None? && second.to == LoginPath;
        assert AppRoutes(second.to, currentUser, userRole) == Render(LoginPage);
      }
    }
  }

  /** Two redirects are sometimes needed: an anonymous visitor on an
      unknown path goes to `/`, then to `/login`. */
  lemma TwoRedirectsNeeded(userRole: Option<string>)
    ensures Follow("/menu", None, userRole, 1) == None
    ensures Follow("/menu", None, userRole, 2) == Some(LoginPage)
  {
  }

  /** The two `/admin` scenarios: anonymous visitors are sent to `/login`,
      signed-in visitors without the admin role to `/`, where Home renders. */
  lemma AdminScenarios(u: User, userRole: Option<string>)
    ensures AppRoutes(AdminPath, None, userRole) == Redirect(LoginPath)
    ensures userRole != Some(AdminRole) ==> AppRoutes(AdminPath, Some(u), userRole) == Redirect(HomePath)
    ensures userRole != Some(AdminRole) ==> Follow(AdminPath, Some(u), userRole, 1) == Some(HomePage)
  {
  }
}
