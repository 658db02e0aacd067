/** The site header's view of who is signed in. It reconciles two sources:
    the custom sign-in's context user and the Google (NextAuth) session
    user. The Google user wins for display; the dashboard link follows the
    context user's role alone. */
module Navigation {
  import opened Common
  import opened NextAuthSession
  import opened AuthContext

  /** `isGoogleUser`. */
  predicate IsGoogleUser(session: Option<Session>) {
    HasSessionUser(session)
  }

  /** `isManualUser`: a context user and no Google user. */
  function IsManualUser(session: Option<Session>, contextUser: Option<ClientUser>): (r: bool)
    ensures r <==> contextUser.Some? && !IsGoogleUser(session)
    ensures r ==> !IsGoogleUser(session)
  {
    contextUser.Some? && !IsGoogleUser(session)
  }

  /** The account shown in the header. */
  datatype Account = GoogleAccount(sessionUser: SessionUser) | ManualAccount(user: ClientUser)

  /** `activeUser`: the session user when there is one, else the context
      user. */
  function ActiveUser(session: Option<Session>, contextUser: Option<ClientUser>): (r: Option<Account>)
    ensures IsGoogleUser(session) ==> r == Some(GoogleAccount(session.value.user.value))
    ensures !IsGoogleUser(session) && contextUser.Some? ==> r == Some(ManualAccount(contextUser.value))
    ensures r.None? <==> !IsGoogleUser(session) && contextUser.None?
  {
    if IsGoogleUser(session) then Some(GoogleAccount(session.value.user.value))
    else match contextUser
      case Some(u) => Some(ManualAccount(u))
      case None => None
  }

  /** `userName`: the account's name, else its email, else "User". */
  function UserName(active: Option<Account>): (r: string)
    ensures r != ""
    ensures active.Some? && active.value.ManualAccount? ==>
              r == (if active.value.user.name != "" then active.value.user.name
                    else if active.value.user.email != "" then active.value.user.email
                    else "User")
    ensures active.Some? && active.value.GoogleAccount? ==>
              r == (if Truthy(active.value.sessionUser.name) then active.value.sessionUser.name.value
                    else if Truthy(active.value.sessionUser.email) then active.value.sessionUser.email.value
                    else "User")
    ensures active.None? ==> r == "User"
  {
    match active
    case None => "User"
    case Some(GoogleAccount(s)) => OrElse(s.name, OrElse(s.email, "User"))
    case Some(ManualAccount(u)) => OrElse(Some(u.name), OrElse(Some(u.email), "User"))
  }

  /** `dashboardLink`: "/admin" exactly for a context user whose role is
      "admin". The session plays no part. */
  function DashboardLink(contextUser: Option<ClientUser>): (r: string)
    ensures r == "/admin" <==> contextUser.Some? && contextUser.value.role == "admin"
    ensures r != "/admin" ==> r == "/dashboard"
  {
    if contextUser.Some? && contextUser.value.role == "admin" then "/admin" else "/dashboard"
  }

  /** The entries of the header's user menu. */
  datatype MenuEntry = DashboardEntry(link: string, caption: string) | BookingsEntry | SignOutEntry | SignInEntry

  /** The open desktop user menu, or the "Sign In" link when nobody is
      signed in. Only a manual user gets the dashboard and bookings entries;
      every signed-in user gets "Sign Out". */
  function DesktopMenu(session: Option<Session>, contextUser: Option<ClientUser>): (r: seq<MenuEntry>)
    ensures ActiveUser(session, contextUser).None? ==> r == [SignInEntry]
    ensures ActiveUser(session, contextUser).Some? ==> r != [] && r[|r| - 1] == SignOutEntry
    ensures (exists i :: 0 <= i < |r| && r[i].DashboardEntry?) <==> IsManualUser(session, contextUser)
    ensures BookingsEntry in r <==> IsManualUser(session, contextUser)
  {
    if ActiveUser(session, contextUser).None? then [SignInEntry]
    else if IsManualUser(session, contextUser) then
      var caption := if contextUser.value.role == "admin" then "Admin Dashboard" else "My Dashboard";
      var r := [DashboardEntry(DashboardLink(contextUser), caption), BookingsEntry, SignOutEntry];
      assert r[0].DashboardEntry?;
      r
    else [SignOutEntry]
  }

  /** The mobile menu's account entries. */
  function MobileMenu(session: Option<Session>, contextUser: Option<ClientUser>): (r: seq<MenuEntry>)
    ensures ActiveUser(session, contextUser).None? ==> r == [SignInEntry]
    ensures (exists i :: 0 <= i < |r| && r[i].DashboardEntry?) <==> IsManualUser(session, contextUser)
    ensures BookingsEntry !in r
  {
    if ActiveUser(session, contextUser).None? then [SignInEntry]
    else if IsManualUser(session, contextUser) then
      var r := [DashboardEntry(DashboardLink(contextUser), "Dashboard"), SignOutEntry];
      assert r[0].DashboardEntry?;
      r
    else [SignOutEntry]
  }

  /** Which sign-out `handleSignOut` triggers. */
  datatype SignOutAction = GoogleSignOut | ManualLogout | NoSignOut

  function SignOutChoice(session: Option<Session>, contextUser: Option<ClientUser>): (a: SignOutAction)
    ensures a == GoogleSignOut <==> IsGoogleUser(session)
    ensures a == ManualLogout <==> IsManualUser(session, contextUser)
    ensures a == NoSignOut <==> ActiveUser(session, contextUser).None?
  {
    if IsGoogleUser(session) then GoogleSignOut
    else if IsManualUser(session, contextUser) then ManualLogout
    else NoSignOut
  }

  /** The header's own state: the mobile menu and the user menu. */
  class NavigationMenu {
    var isOpen: bool
    var userMenuOpen: bool

    constructor ()
      ensures !isOpen && !userMenuOpen
    {
      isOpen := false;
      userMenuOpen := false;
    }

    /** `handleSignOut`: closes both menus, then signs out of Google for a
        Google user, or logs the manual user out, never both. */
    method HandleSignOut(session: Option<Session>, contextUser: Option<ClientUser>) returns (action: SignOutAction)
      modifies this
      ensures !isOpen && !userMenuOpen
      ensures action == SignOutChoice(session, contextUser)
    {
      userMenuOpen := false;
      isOpen := false;
      if IsGoogleUser(session) {
        action := GoogleSignOut;
      } else if IsManualUser(session, contextUser) {
        action := ManualLogout;
      } else {
        action := NoSignOut;
      }
    }
  }
}
