/**
 * The header of the client pages: two fixed tabs, a profile tab that depends
 * on who is logged in, and a log-out action for a logged-in user.
 */
module Header {
  import opened Wrappers
  import ProtectedRoute

  /** A sidebar entry: a link, or the log-out action. */
  datatype Tab = Link(text: string, path: string) | LogOutAction(text: string)

  /** The profile page of a logged-in user, by type. */
  function ProfilePath(userType: Option<string>): (path: string)
    ensures userType == Some("NGO") ==> path == "/profile"
    ensures userType == Some("user") ==> path == "/user"
    ensures userType == Some("admin") ==> path == "/admin"
    ensures !(userType in {Some("NGO"), Some("user"), Some("admin")}) ==> path == "/home"
  {
    if userType == Some("NGO") then "/profile"
    else if userType == Some("user") then "/user"
    else if userType == Some("admin") then "/admin"
    else "/home"
  }

  /** 'Log In' for a visitor, 'Profile' for a logged-in user. */
  function ProfileTab(user: Option<ProtectedRoute.MeUser>): (t: Tab)
    ensures user.None? ==> t == Link("Log In", "/login")
    ensures user.Some? ==> t == Link("Profile", ProfilePath(user.value.userType))
  {
    match user
    case None => Link("Log In", "/login")
    case Some(u) => Link("Profile", ProfilePath(u.userType))
  }

  /** The greeting shows the name, or the email when the name is empty or null. */
  function Greeting(user: ProtectedRoute.MeUser): (g: Option<string>)
    ensures user.name.Some? && user.name.value != "" ==> g == user.name
    ensures !(user.name.Some? && user.name.value != "") ==> g == user.email
  {
    if user.name.Some? && user.name.value != "" then user.name else user.email
  }

  /** The header's profile link sends each role where the route guard would send it. */
  lemma ProfilePathIsGuardRedirect(userType: Option<string>)
    ensures ProfilePath(userType) == ProtectedRoute.RoleHome(userType)
  {
  }

  /** How the log-out request ended: it resolved (with any status) or it threw. */
  datatype LogoutOutcome = Resolved | Threw

  /** The header's state: the logged-in user, if known, and the current location. */
  class HeaderView {
    var user: Option<ProtectedRoute.MeUser>
    var location: string

    constructor (at: string)
      ensures user.None? && location == at
    {
      user := None;
      location := at;
    }

    /** The `/api/auth/me` answer: an ok body becomes the user; otherwise the user is left as it was. */
    method ReceiveMe(response: ProtectedRoute.MeResponse)
      modifies this
      ensures response.MeOk? ==> user == Some(response.body)
      ensures !response.MeOk? ==> user == old(user)
      ensures location == old(location)
    {
      if response.MeOk? {
        user := Some(response.body);
      }
    }

    /** The tabs: Donate, Home and the profile tab, then a log-out action pushed for a logged-in user. */
    method Tabs() returns (tabs: seq<Tab>)
      ensures |tabs| == if user.Some? then 4 else 3
      ensures tabs[0] == Link("Donate", "/search") && tabs[1] == Link("Home", "/home")
      ensures tabs[2] == ProfileTab(user)
      ensures user.Some? ==> tabs[3] == LogOutAction("Log out")
      ensures forall i :: 0 <= i < |tabs| && tabs[i].LogOutAction? ==> i == 3
    {
      tabs := [Link("Donate", "/search"), Link("Home", "/home"), ProfileTab(user)];
      if user.Some? {
        tabs := tabs + [LogOutAction("Log out")];
      }
    }

    /** `handleLogout`: once the request resolves, the user is cleared and the page goes home. */
    method HandleLogout(outcome: LogoutOutcome)
      modifies this
      ensures outcome == Resolved ==> user.None? && location == "/home"
      ensures outcome == Threw ==> user == old(user) && location == old(location)
    {
      if outcome == Resolved {
        user := None;
        location := "/home";
      }
    }
  }
}
