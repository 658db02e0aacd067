/** The admin dashboard: its role gate, the data it loads, the figures it
    shows (status counts, unread messages, revenue, conversion rate), the
    approve and reject buttons and the status change they send. */
module Admin {
  import opened Common
  import opened Seqs
  import opened NumberParse
  import opened AuthContext
  import opened BookingsRoute
  import opened MessagesRoute
  import Dashboard

  /** What the page renders for the context user. */
  datatype AdminView = PleaseLogIn | AccessDenied | AdminMain

  /** Only a user whose role is exactly "admin" sees the admin screens. */
  function ViewOf(user: Option<ClientUser>): (r: AdminView)
    ensures r == AdminMain <==> user.Some? && user.value.role == "admin"
    ensures r == PleaseLogIn <==> user.None?
  {
    match user
    case None => PleaseLogIn
    case Some(u) => if u.role != "admin" then AccessDenied else AdminMain
  }

  /** What the load effect did. */
  datatype LoadEffect =
    | RedirectToDashboard
    | NotLoaded
    /** The bookings request went out with these headers; the messages
        request followed unless the first one threw. */
    | Requested(userIdHeader: string, isAdminHeader: string, messagesRequested: bool)

  function HasStatus(status: string): Booking -> bool {
    (b: Booking) => b.status == status
  }

  /** The number of bookings whose status is exactly `status`. */
  function CountStatus(bookings: seq<Booking>, status: string): (n: nat)
    ensures n <= |bookings|
  {
    |Filter(bookings, HasStatus(status))|
  }

  /** The three status cards never add up to more than the bookings there
      are, and add up to all of them when every status is one of the
      three. */
  lemma {:induction false} StatusCardsBounded(bookings: seq<Booking>)
    ensures CountStatus(bookings, "Pending") + CountStatus(bookings, "Approved") + CountStatus(bookings, "Rejected")
            <= |bookings|
    ensures (forall i :: 0 <= i < |bookings| ==>
               bookings[i].status == "Pending" || bookings[i].status == "Approved" || bookings[i].status == "Rejected")
            ==> CountStatus(bookings, "Pending") + CountStatus(bookings, "Approved") + CountStatus(bookings, "Rejected")
                == |bookings|
  {
    if bookings != [] {
      StatusCardsBounded(bookings[1..]);
      var s := bookings[0].status;
      assert s == "Pending" ==> s != "Approved" && s != "Rejected";
      assert s == "Approved" ==> s != "Rejected";
    }
  }

  function IsUnread(m: Message): bool {
    m.status == "unread"
  }

  /** The "Unread Messages" card. */
  function UnreadCount(messages: seq<Message>): (n: nat)
    ensures n <= |messages|
    ensures n == 0 <==> forall i :: 0 <= i < |messages| ==> messages[i].status != "unread"
  {
    var r := Filter(messages, IsUnread);
    FilterMembers(messages, IsUnread);
    if |r| != 0 then
      assert r[0] in r && IsUnread(r[0]);
      |r|
    else
      assert forall i :: 0 <= i < |messages| ==> !IsUnread(messages[i]) by {
        forall i | 0 <= i < |messages| ensures !IsUnread(messages[i]) {
          assert messages[i] in messages;
        }
      }
      |r|
  }

  /** `budgets.reduce((sum, b) => sum + Number.parseInt(b.budget), 0)`:
      one unparsable budget makes the whole sum NaN (`None`). */
  function SumBudgets(bookings: seq<Booking>): Option<int> {
    if bookings == [] then Some(0)
    else match (ParseInt(bookings[0].budget), SumBudgets(bookings[1..]))
      case (Some(v), Some(rest)) => Some(v + rest)
      case _ => None
  }

  /** The sum is NaN exactly when some budget does not parse. */
  lemma {:induction false} SumBudgetsNaN(bookings: seq<Booking>)
    ensures SumBudgets(bookings).None? <==> exists b :: b in bookings && ParseInt(b.budget).None?
  {
    if bookings != [] {
      var head, tail := bookings[0], bookings[1..];
      SumBudgetsNaN(tail);
      assert SumBudgets(bookings).None? <==> ParseInt(head.budget).None? || SumBudgets(tail).None?;
      assert bookings == [head] + tail;
      assert forall b :: b in bookings <==> b == head || b in tail;
    }
  }

  /** When it is a number, the sum agrees with the dashboard's total, which
      counts an unparsable budget as 0. */
  lemma {:induction false} SumBudgetsAgreesWithTotal(bookings: seq<Booking>)
    requires SumBudgets(bookings).Some?
    ensures SumBudgets(bookings).value == Dashboard.TotalSpent(bookings)
  {
    if bookings != [] {
      SumBudgetsAgreesWithTotal(bookings[1..]);
    }
  }

  /** "Total Revenue": the budgets of the Approved bookings. */
  function Revenue(bookings: seq<Booking>): Option<int> {
    SumBudgets(Filter(bookings, HasStatus("Approved")))
  }

  /** Revenue is NaN exactly when an Approved booking's budget does not
      parse; a Pending or Rejected booking's budget never matters, and
      otherwise it is the total of the Approved bookings. */
  lemma RevenueNaN(bookings: seq<Booking>)
    ensures Revenue(bookings).None? <==>
              exists b :: b in bookings && b.status == "Approved" && ParseInt(b.budget).None?
    ensures Revenue(bookings).Some? ==>
              Revenue(bookings).value == Dashboard.TotalSpent(Filter(bookings, HasStatus("Approved")))
  {
    var approved := Filter(bookings, HasStatus("Approved"));
    FilterMembers(bookings, HasStatus("Approved"));
    SumBudgetsNaN(approved);
    if Revenue(bookings).Some? {
      SumBudgetsAgreesWithTotal(approved);
    }
  }

  /** The conversion rate in percent before `toFixed(1)`: 0 without
      bookings, otherwise the Approved share of all bookings. */
  function ConversionRate(bookings: seq<Booking>): (r: real)
    ensures 0.0 <= r <= 100.0
    ensures r == 0.0 <==> CountStatus(bookings, "Approved") == 0
    ensures r == 100.0 <==> |bookings| > 0 && CountStatus(bookings, "Approved") == |bookings|
  {
    if |bookings| > 0 then
      var a, t := CountStatus(bookings, "Approved") as real, |bookings| as real;
      assert a <= t;
      RatioBounds(a, t);
      a / t * 100.0
    else 0.0
  }

  lemma RatioBounds(a: real, t: real)
    requires 0.0 <= a <= t && t > 0.0
    ensures 0.0 <= a / t * 100.0 <= 100.0
    ensures a / t * 100.0 == 0.0 <==> a == 0.0
    ensures a / t * 100.0 == 100.0 <==> a == t
  {
    var q := a / t;
    assert q * t == a;
    if q == 1.0 {
      assert a == t;
    }
  }

  /** The two buttons on a booking card and the status each one sets. */
  datatype StatusButton = Approve | Reject

  function Target(button: StatusButton): string {
    match button
    case Approve => "Approved"
    case Reject => "Rejected"
  }

  /** A button is disabled when the booking already has the status it sets. */
  function ButtonDisabled(b: Booking, button: StatusButton): (r: bool)
    ensures r <==> b.status == Target(button)
  {
    b.status == Target(button)
  }

  /** A booking never has both buttons disabled, and a Pending one has both
      enabled. */
  lemma ButtonsNeverBothDisabled(b: Booking)
    ensures !(ButtonDisabled(b, Approve) && ButtonDisabled(b, Reject))
    ensures b.status == "Pending" ==> !ButtonDisabled(b, Approve) && !ButtonDisabled(b, Reject)
  {
    assert "Approved"[0] != "Rejected"[0];
  }

  /** `bookings.map(b => b._id === bookingId ? { ...b, status } : b)`. */
  function WithStatus(bookings: seq<Booking>, bookingId: Id, status: string): (r: seq<Booking>)
    ensures |r| == |bookings|
    ensures forall i :: 0 <= i < |r| ==> r[i].id == bookings[i].id
    ensures forall i :: 0 <= i < |r| && bookings[i].id != bookingId ==> r[i] == bookings[i]
    ensures forall i :: 0 <= i < |r| && bookings[i].id == bookingId ==> r[i] == bookings[i].(status := status)
  {
    if bookings == [] then []
    else
      var b := bookings[0];
      var head := if b.id == bookingId then b.(status := status) else b;
      var rest := WithStatus(bookings[1..], bookingId, status);
      assert forall i :: 1 <= i < |bookings| ==> bookings[i] == bookings[1..][i - 1];
      [head] + rest
  }

  /** Setting the same status twice changes nothing more. */
  lemma {:induction false} WithStatusIdempotent(bookings: seq<Booking>, bookingId: Id, status: string)
    ensures WithStatus(WithStatus(bookings, bookingId, status), bookingId, status) == WithStatus(bookings, bookingId, status)
  {
    if bookings != [] {
      var once := WithStatus(bookings, bookingId, status);
      assert once[1..] == WithStatus(bookings[1..], bookingId, status);
      WithStatusIdempotent(bookings[1..], bookingId, status);
    }
  }

  /** The admin's list after a successful change agrees with the stored
      collection after the PUT entry by entry: only the stored `updatedAt`
      stamp, which the page does not refetch, may differ. */
  lemma WithStatusMirrorsPut(stored: seq<Booking>, bookingId: Id, status: string, now: int, after: seq<Booking>)
    requires |after| == |stored|
    requires forall i :: 0 <= i < |stored| ==>
               after[i] == if stored[i].id == bookingId then stored[i].(status := status, updatedAt := Some(now))
                           else stored[i]
    ensures var shown := WithStatus(stored, bookingId, status);
            |shown| == |after| &&
            forall i :: 0 <= i < |stored| ==> shown[i] == after[i].(updatedAt := stored[i].updatedAt)
  {
  }

  /** What the status change tells the admin. */
  datatype Notice = StatusChanged(status: string) | UpdateFailed | Silent

  /** The admin page's own state. */
  class AdminPage {
    var bookings: seq<Booking>
    var messages: seq<Message>
    var isLoading: bool
    var activeTab: string

    constructor ()
      ensures bookings == [] && messages == [] && isLoading && activeTab == "bookings"
    {
      bookings := [];
      messages := [];
      isLoading := true;
      activeTab := "bookings";
    }

    /** The load effect. A non-admin is sent to /dashboard and nothing is
        fetched; without a user nothing happens. Otherwise all bookings are
        requested as admin, then all messages; an ok reply replaces the list,
        a thrown error skips the rest, and the spinner stops either way. */
    method LoadData(user: Option<ClientUser>, bookingsReply: Fetched<seq<Booking>>, messagesReply: Fetched<seq<Message>>)
      returns (effect: LoadEffect)
      modifies this
      ensures user.Some? && user.value.role != "admin" ==>
                effect == RedirectToDashboard && bookings == old(bookings) && messages == old(messages)
                && isLoading == old(isLoading)
      ensures user.None? ==>
                effect == NotLoaded && bookings == old(bookings) && messages == old(messages) && isLoading == old(isLoading)
      ensures ViewOf(user) == AdminMain ==>
                && effect == Requested(user.value.userId, "true", !bookingsReply.Threw?)
                && !isLoading
                && bookings == (if bookingsReply.Replied? && bookingsReply.ok then bookingsReply.body else old(bookings))
                && messages == (if !bookingsReply.Threw? && messagesReply.Replied? && messagesReply.ok
                                then messagesReply.body else old(messages))
      ensures activeTab == old(activeTab)
    {
      if user.Some? && user.value.role != "admin" {
        return RedirectToDashboard;
      }
      if user.None? {
        return NotLoaded;
      }
      effect := Requested(user.value.userId, "true", !bookingsReply.Threw?);
      if bookingsReply.Threw? {
        isLoading := false;
        return;
      }
      if bookingsReply.ok {
        bookings := bookingsReply.body;
      }
      if messagesReply.Replied? && messagesReply.ok {
        messages := messagesReply.body;
      }
      isLoading := false;
    }

    /** `handleStatusChange`: after an ok PUT every entry with that id takes
        the new status; an error status changes nothing silently, a thrown
        error changes nothing and says so. */
    method HandleStatusChange(bookingId: Id, newStatus: string, reply: Fetched<()>) returns (notice: Notice)
      modifies this
      ensures reply.Replied? && reply.ok ==>
                bookings == WithStatus(old(bookings), bookingId, newStatus) && notice == StatusChanged(newStatus)
      ensures reply.Replied? && !reply.ok ==> bookings == old(bookings) && notice == Silent
      ensures reply.Threw? ==> bookings == old(bookings) && notice == UpdateFailed
      ensures messages == old(messages) && isLoading == old(isLoading) && activeTab == old(activeTab)
    {
      match reply
      case Threw =>
        notice := UpdateFailed;
      case Replied(ok, _) =>
        if ok {
          bookings := WithStatus(bookings, bookingId, newStatus);
          notice := StatusChanged(newStatus);
        } else {
          notice := Silent;
        }
    }

    /** The tab buttons. */
    method SelectTab(tab: string)
      modifies this
      ensures activeTab == tab
      ensures bookings == old(bookings) && messages == old(messages) && isLoading == old(isLoading)
    {
      activeTab := tab;
    }
  }
}
