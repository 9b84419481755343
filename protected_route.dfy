/**
 * The route guard of the client: it asks the server who is logged in, renders
 * nothing until it knows, sends anonymous visitors to the login page, renders
 * the protected page for an allowed role, and otherwise redirects the user to
 * the page of their own role.
 */
module ProtectedRoute {
  import opened Wrappers

  /** The body of `/api/auth/me`: id, name, email and type, any of the last three possibly null. */
  datatype MeUser = MeUser(id: int, name: Option<string>, email: Option<string>, userType: Option<string>)

  /** How the `/api/auth/me` request ended. */
  datatype MeResponse = MeOk(body: MeUser) | MeNotOk | MeFailed

  /** The user the guard keeps: a non-ok answer and a failed request both leave none. */
  function FetchedUser(response: MeResponse): (r: Option<MeUser>)
    ensures r.Some? <==> response.MeOk?
    ensures r.Some? ==> r.value == response.body
  {
    if response.MeOk? then Some(response.body) else None
  }

  /** What the guard renders. */
  datatype Render = Nothing | Redirect(path: string) | Children

  /**
   * The page of each role: admin, NGO and user have their own, anyone else
   * goes home. The headers write the same mapping out again in another order;
   * `Header.ProfilePathIsGuardRedirect` proves they agree.
   */
  function RoleHome(userType: Option<string>): (path: string)
    ensures userType == Some("admin") ==> path == "/admin"
    ensures userType == Some("NGO") ==> path == "/profile"
    ensures userType == Some("user") ==> path == "/user"
    ensures !(userType in {Some("admin"), Some("NGO"), Some("user")}) ==> path == "/home"
  {
    if userType == Some("admin") then "/admin"
    else if userType == Some("NGO") then "/profile"
    else if userType == Some("user") then "/user"
    else "/home"
  }

  predicate Allowed(user: MeUser, allowedRoles: seq<string>) {
    user.userType.Some? && user.userType.value in allowedRoles
  }

  /** The render decision, checked in order: loading, no user, allowed role, redirect by role. */
  function Decide(loading: bool, user: Option<MeUser>, allowedRoles: seq<string>): (r: Render)
    ensures r == Nothing <==> loading
    ensures r == Redirect("/login") <==> !loading && user.None?
    ensures r == Children <==> !loading && user.Some? && Allowed(user.value, allowedRoles)
    ensures !loading && user.Some? && !Allowed(user.value, allowedRoles) ==> r == Redirect(RoleHome(user.value.userType))
  {
    if loading then Nothing
    else if user.None? then Redirect("/login")
    else if !Allowed(user.value, allowedRoles) then Redirect(RoleHome(user.value.userType))
    else Children
  }

  /** The guarded routes of the application and the roles each admits. */
  function GuardedRoles(path: string): Option<seq<string>> {
    if path == "/profile" then Some(["NGO"])
    else if path == "/admin" then Some(["admin"])
    else if path == "/user" then Some(["user"])
    else None
  }

  /**
   * For each known role, the redirect lands on the guarded route that admits
   * that role, so a second guard renders the page; any other type lands on
   * an unguarded page.
   */
  lemma OneRedirectSuffices(user: MeUser, allowedRoles: seq<string>)
    requires Decide(false, Some(user), allowedRoles).Redirect?
    ensures var target := Decide(false, Some(user), allowedRoles).path;
      if user.userType in {Some("admin"), Some("NGO"), Some("user")} then
        GuardedRoles(target).Some? && Decide(false, Some(user), GuardedRoles(target).value) == Children
      else GuardedRoles(target).None?
  {
  }
}
