/** The header of the static page build: the same three tabs as the client header, and no log-out action. */
module StaticHeader {
  import opened Wrappers
  import ProtectedRoute
  import Header

  /**
   * The profile path, by type. The static build keeps its own copy of the
   * client header's mapping, so it is modelled as a copy too;
   * `AgreesWithClientHeader` proves the two agree.
   */
  function ProfilePath(userType: Option<string>): (path: string)
    ensures userType == Some("NGO") ==> path == "/profile"
    ensures userType == Some("user") ==> path == "/user"
    ensures userType == Some("admin") ==> path == "/admin"
    ensures !(userType in {Some("NGO"), Some("user"), Some("admin")}) ==> path == "/home"
  {
    if userType == Some("NGO") then "/profile"
    else if userType == Some("user") then "/user"
    else if userType == Some("admin") then "/admin"
    else "/home"
  }

  /** Always exactly Donate, Home and the profile tab. */
  function Tabs(user: Option<ProtectedRoute.MeUser>): (tabs: seq<Header.Tab>)
    ensures |tabs| == 3
    ensures tabs[0] == Header.Link("Donate", "/search") && tabs[1] == Header.Link("Home", "/home")
    ensures user.None? ==> tabs[2] == Header.Link("Log In", "/login")
    ensures user.Some? ==> tabs[2] == Header.Link("Profile", ProfilePath(user.value.userType))
    ensures forall i :: 0 <= i < |tabs| ==> tabs[i].Link?
  {
    [Header.Link("Donate", "/search"), Header.Link("Home", "/home"),
     match user
     case None => Header.Link("Log In", "/login")
     case Some(u) => Header.Link("Profile", ProfilePath(u.userType))]
  }

  /** The two headers agree on the profile tab, and on the first three tabs. */
  lemma AgreesWithClientHeader(user: Option<ProtectedRoute.MeUser>)
    ensures Tabs(user)[2] == Header.ProfileTab(user)
    ensures forall t :: ProfilePath(t) == Header.ProfilePath(t)
  {
  }
}
