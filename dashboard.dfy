/** The user dashboard: which identity it shows, when it redirects or waits,
    how it splits bookings into upcoming and past, what it adds up as spent,
    and its delete and logout handlers. Dates are parsed by a caller-given
    `dateOf` (`None` for an invalid date) and compared with `now`. */
module Dashboard {
  import opened Common
  import opened Seqs
  import opened NumberParse
  import opened NextAuthSession
  import opened AuthContext
  import opened BookingsRoute

  /** `user`: the custom user when there is one; otherwise a user made from
      the Google session, with role "user" and the email as its id. */
  function EffectiveUser(customUser: Option<ClientUser>, session: Option<Session>): (r: Option<ClientUser>)
    ensures customUser.Some? ==> r == customUser
    ensures customUser.None? ==> (r.Some? <==> HasSessionUser(session))
    ensures customUser.None? && r.Some? ==>
              var s := session.value.user.value;
              && r.value.role == "user"
              && r.value.userId == OrElse(s.email, "") && r.value.email == OrElse(s.email, "")
              && r.value.name == OrElse(s.name, "") && r.value.username == OrElse(s.name, "")
              && r.value.avatar == Some(OrElse(s.image, "/placeholder.svg"))
  {
    if customUser.Some? then customUser
    else if HasSessionUser(session) then
      var s := session.value.user.value;
      Some(ClientUser(OrElse(s.email, ""), OrElse(s.name, ""), OrElse(s.email, ""), OrElse(s.name, ""), "user",
                      None, None, Some(OrElse(s.image, "/placeholder.svg"))))
    else None
  }

  /** The redirect effect: to /login exactly when NextAuth says
      "unauthenticated" and there is no custom user. */
  predicate RedirectsToLogin(status: SessionStatus, customUser: Option<ClientUser>) {
    status == Unauthenticated && customUser.None?
  }

  datatype Screen = LoadingScreen | PleaseLogIn | Main(user: ClientUser)

  /** What the page renders: the spinner only while NextAuth is loading and
      there is no custom user, then "Please log in" without a user. */
  function ScreenOf(status: SessionStatus, customUser: Option<ClientUser>, session: Option<Session>): (r: Screen)
    ensures r == LoadingScreen <==> status == Loading && customUser.None?
    ensures customUser.Some? ==> r == Main(customUser.value)
    ensures r == PleaseLogIn ==> EffectiveUser(customUser, session).None?
    ensures r.Main? ==> EffectiveUser(customUser, session) == Some(r.user)
  {
    if status == Loading && customUser.None? then LoadingScreen
    else match EffectiveUser(customUser, session)
      case None => PleaseLogIn
      case Some(u) => Main(u)
  }

  /** The page never redirects and shows its spinner at once. */
  lemma RedirectAndSpinnerExclusive(status: SessionStatus, customUser: Option<ClientUser>, session: Option<Session>)
    ensures !(RedirectsToLogin(status, customUser) && ScreenOf(status, customUser, session) == LoadingScreen)
  {
  }

  function IsUpcoming(dateOf: string -> Option<int>, now: int): Booking -> bool {
    (b: Booking) => dateOf(b.date).Some? && dateOf(b.date).value > now
  }

  function IsPast(dateOf: string -> Option<int>, now: int): Booking -> bool {
    (b: Booking) => dateOf(b.date).Some? && dateOf(b.date).value <= now
  }

  function IsDated(dateOf: string -> Option<int>): Booking -> bool {
    (b: Booking) => dateOf(b.date).Some?
  }

  /** `upcomingBookings`: dated strictly after now. */
  function Upcoming(bookings: seq<Booking>, dateOf: string -> Option<int>, now: int): seq<Booking> {
    Filter(bookings, IsUpcoming(dateOf, now))
  }

  /** `pastBookings`: dated now or earlier. */
  function Past(bookings: seq<Booking>, dateOf: string -> Option<int>, now: int): seq<Booking> {
    Filter(bookings, IsPast(dateOf, now))
  }

  /** A booking with a valid date is in exactly one of the two lists; one
      with an invalid date is in neither. */
  lemma UpcomingPastPartition(bookings: seq<Booking>, dateOf: string -> Option<int>, now: int, b: Booking)
    requires b in bookings
    ensures dateOf(b.date).Some? ==> (b in Upcoming(bookings, dateOf, now) <==> b !in Past(bookings, dateOf, now))
    ensures dateOf(b.date).None? ==> b !in Upcoming(bookings, dateOf, now) && b !in Past(bookings, dateOf, now)
  {
    var k :| 0 <= k < |bookings| && bookings[k] == b;
    var up, past := Upcoming(bookings, dateOf, now), Past(bookings, dateOf, now);
    FilterMembers(bookings, IsUpcoming(dateOf, now));
    FilterMembers(bookings, IsPast(dateOf, now));
    if b in up {
      var i :| 0 <= i < |up| && up[i] == b;
      assert IsUpcoming(dateOf, now)(up[i]);
    }
    if b in past {
      var i :| 0 <= i < |past| && past[i] == b;
      assert IsPast(dateOf, now)(past[i]);
    }
    if dateOf(b.date).Some? {
      if dateOf(b.date).value > now {
        assert IsUpcoming(dateOf, now)(bookings[k]);
      } else {
        assert IsPast(dateOf, now)(bookings[k]);
      }
    }
  }

  /** The page reads the clock anew for each comparison, upcoming first,
      so the past filter may run with a later reading `later >= earlier`.
      A booking dated between the two readings then shows in both tabs;
      any other dated booking still shows in exactly one. */
  lemma UpcomingPastTwoReadings(bookings: seq<Booking>, dateOf: string -> Option<int>, earlier: int, later: int, b: Booking)
    requires earlier <= later
    requires b in bookings && dateOf(b.date).Some?
    ensures earlier < dateOf(b.date).value <= later ==>
              b in Upcoming(bookings, dateOf, earlier) && b in Past(bookings, dateOf, later)
    ensures !(earlier < dateOf(b.date).value <= later) ==>
              (b in Upcoming(bookings, dateOf, earlier) <==> b !in Past(bookings, dateOf, later))
  {
    FilterMembers(bookings, IsUpcoming(dateOf, earlier));
    FilterMembers(bookings, IsPast(dateOf, later));
    assert IsUpcoming(dateOf, earlier)(b) <==> dateOf(b.date).value > earlier;
    assert IsPast(dateOf, later)(b) <==> dateOf(b.date).value <= later;
  }

  /** The two tabs together count every booking with a valid date once. */
  lemma {:induction false} UpcomingPastCount(bookings: seq<Booking>, dateOf: string -> Option<int>, now: int)
    ensures |Upcoming(bookings, dateOf, now)| + |Past(bookings, dateOf, now)| == |Filter(bookings, IsDated(dateOf))|
  {
    if bookings != [] {
      UpcomingPastCount(bookings[1..], dateOf, now);
    }
  }

  /** `Number.parseInt(b.budget) || 0`. */
  function BudgetOrZero(b: Booking): int {
    match ParseInt(b.budget)
    case Some(v) => v
    case None => 0
  }

  /** "Total Spent": the budgets summed, an unparsable one as 0. */
  function TotalSpent(bookings: seq<Booking>): int {
    if bookings == [] then 0 else BudgetOrZero(bookings[0]) + TotalSpent(bookings[1..])
  }

  /** The total is additive over any split of the list. */
  lemma {:induction false} TotalSpentConcat(a: seq<Booking>, b: seq<Booking>)
    ensures TotalSpent(a + b) == TotalSpent(a) + TotalSpent(b)
  {
    if a == [] {
      assert a + b == b;
    } else {
      assert (a + b)[1..] == a[1..] + b;
      TotalSpentConcat(a[1..], b);
    }
  }

  /** A booking whose budget does not parse adds nothing; a budget written
      as a decimal numeral adds its value. */
  lemma TotalSpentAppend(bookings: seq<Booking>, b: Booking, n: nat)
    ensures ParseInt(b.budget).None? ==> TotalSpent(bookings + [b]) == TotalSpent(bookings)
    ensures b.budget == Decimal(n) ==> TotalSpent(bookings + [b]) == TotalSpent(bookings) + n
  {
    TotalSpentConcat(bookings, [b]);
    assert TotalSpent([b]) == BudgetOrZero(b);
    if b.budget == Decimal(n) {
      ParseIntDecimal(n, []);
      assert Decimal(n) + [] == Decimal(n);
    }
  }

  /** `displayBookings`: the upcoming list on the "upcoming" tab, the past
      list on any other. */
  function DisplayBookings(bookings: seq<Booking>, activeTab: string, dateOf: string -> Option<int>, now: int): (r: seq<Booking>)
    ensures activeTab == "upcoming" ==> r == Upcoming(bookings, dateOf, now)
    ensures activeTab != "upcoming" ==> r == Past(bookings, dateOf, now)
    ensures forall i :: 0 <= i < |r| ==> r[i] in bookings && dateOf(r[i].date).Some?
  {
    FilterMembers(bookings, IsUpcoming(dateOf, now));
    FilterMembers(bookings, IsPast(dateOf, now));
    if activeTab == "upcoming" then Upcoming(bookings, dateOf, now) else Past(bookings, dateOf, now)
  }

  function NotId(id: Id): Booking -> bool {
    (b: Booking) => b.id != id
  }

  /** Which sign-out `handleLogout` performs. */
  datatype LogoutAction = SessionSignOut | CustomLogout | NoLogout

  /** The dashboard's own state. */
  class DashboardPage {
    var bookings: seq<Booking>
    var isLoading: bool
    var activeTab: string

    constructor ()
      ensures bookings == [] && isLoading && activeTab == "upcoming"
    {
      bookings := [];
      isLoading := true;
      activeTab := "upcoming";
    }

    /** The bookings fetch effect: nothing without a user; otherwise the
        list is replaced by an ok reply's body and the spinner stops, whether
        the reply was ok, an error status or a thrown error. */
    method LoadBookings(user: Option<ClientUser>, reply: Fetched<seq<Booking>>)
      modifies this
      ensures user.None? ==> bookings == old(bookings) && isLoading == old(isLoading)
      ensures user.Some? ==> !isLoading
      ensures user.Some? && reply.Replied? && reply.ok ==> bookings == reply.body
      ensures user.Some? && !(reply.Replied? && reply.ok) ==> bookings == old(bookings)
      ensures activeTab == old(activeTab)
    {
      if user.None? {
        return;
      }
      if reply.Replied? && reply.ok {
        bookings := reply.body;
      }
      isLoading := false;
    }

    /** The tab buttons. */
    method SelectTab(tab: string)
      modifies this
      ensures activeTab == tab && bookings == old(bookings) && isLoading == old(isLoading)
    {
      activeTab := tab;
    }

    /** `handleDeleteEvent`: after the user confirms and the DELETE succeeds,
        the list loses exactly the entries with that id and keeps the rest in
        order; otherwise it is unchanged. */
    method HandleDeleteEvent(bookingId: Id, confirmed: bool, responseOk: bool)
      modifies this
      ensures confirmed && responseOk ==> bookings == Filter(old(bookings), NotId(bookingId))
      ensures !(confirmed && responseOk) ==> bookings == old(bookings)
      ensures isLoading == old(isLoading) && activeTab == old(activeTab)
    {
      if !confirmed {
        return;
      }
      if responseOk {
        bookings := Filter(bookings, NotId(bookingId));
      }
    }

    /** `handleLogout`: NextAuth sign-out when a session exists, else the
        custom logout when there is a custom user; then the list is cleared
        and the spinner shown. */
    method HandleLogout(session: Option<Session>, customUser: Option<ClientUser>) returns (action: LogoutAction)
      modifies this
      ensures session.Some? ==> action == SessionSignOut
      ensures session.None? && customUser.Some? ==> action == CustomLogout
      ensures session.None? && customUser.None? ==> action == NoLogout
      ensures bookings == [] && isLoading && activeTab == old(activeTab)
    {
      if session.Some? {
        action := SessionSignOut;
      } else if customUser.Some? {
        action := CustomLogout;
      } else {
        action := NoLogout;
      }
      bookings := [];
      isLoading := true;
    }
  }

  /** Deleting keeps every other booking, in order, and drops every entry
      with the id. */
  lemma DeleteKeepsOthers(id: Id, prefix: seq<Booking>, b: Booking, suffix: seq<Booking>)
    ensures Filter(prefix + [b] + suffix, NotId(id))
            == Filter(prefix, NotId(id)) + (if b.id != id then [b] else []) + Filter(suffix, NotId(id))
  {
    FilterMiddle(prefix, b, suffix, NotId(id));
  }
}
