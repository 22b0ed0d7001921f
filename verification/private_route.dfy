/** The route guard that wraps every protected screen: it renders the
    screen, or sends the visitor to the login page, or sends a signed-in
    visitor without the admin role back to the home page. */
module Guard {
  import opened Common

  datatype Decision = RenderChildren | RedirectToLogin | RedirectToHome

  /** The role value that grants the admin-only screens. */
  const AdminRole: string := "admin"

  /** `PrivateRoute`: the signed-in check comes first, the role check only
      on admin-only routes; `adminOnly` is false unless the route says so. */
  function PrivateRoute(currentUser: Option<User>, userRole: Option<string>, adminOnly: bool := false): (r: Decision)
    ensures currentUser.None? ==> r == RedirectToLogin
    ensures r == RedirectToHome ==> currentUser.Some? && adminOnly && userRole != Some(AdminRole)
    ensures r == RenderChildren && adminOnly ==> currentUser.Some? && userRole == Some(AdminRole)
    ensures currentUser.Some? && !adminOnly ==> r == RenderChildren
    ensures currentUser.Some? && adminOnly && userRole != Some(AdminRole) ==> r == RedirectToHome
  {
    if currentUser.None? then
      RedirectToLogin
    else if adminOnly && userRole != Some(AdminRole) then
      RedirectToHome
    else
      RenderChildren
  }

  /** The three kinds of session the guard tells apart. */
  datatype SessionKind = Anonymous | Member | Administrator

  function KindOf(currentUser: Option<User>, userRole: Option<string>): SessionKind
  {
    if currentUser.None? then Anonymous
    else if userRole == Some(AdminRole) then Administrator
    else Member
  }

  /** What a route asks of its visitor. */
  datatype Requirement = SignedIn | SignedInAdmin

  /** The guard's decision table, one cell per session kind and
      requirement, written independently of `PrivateRoute`. */
  function DecisionTable(kind: SessionKind, req: Requirement): Decision
  {
    match (kind, req)
    case (Anonymous, SignedIn) => RedirectToLogin
    case (Anonymous, SignedInAdmin) => RedirectToLogin
    case (Member, SignedIn) => RenderChildren
    case (Member, SignedInAdmin) => RedirectToHome
    case (Administrator, SignedIn) => RenderChildren
    case (Administrator, SignedInAdmin) => RenderChildren
  }

  /** The guard agrees with the decision table on every session and flag. */
  lemma PrivateRouteFollowsTable(currentUser: Option<User>, userRole: Option<string>, adminOnly: bool)
    ensures PrivateRoute(currentUser, userRole, adminOnly)
         == DecisionTable(KindOf(currentUser, userRole), if adminOnly then SignedInAdmin else SignedIn)
  {
  }

  /** A guard without the flag only asks for a signed-in user. */
  lemma DefaultGuardIsSignedInOnly(currentUser: Option<User>, userRole: Option<string>)
    ensures PrivateRoute(currentUser, userRole) == PrivateRoute(currentUser, userRole, false)
    ensures PrivateRoute(currentUser, userRole) == RenderChildren <==> currentUser.Some?
  {
  }
}
