/** The `/api/bookings` route: GET lists bookings for the caller named by the
    `x-user-id` header (all of them when `x-is-admin` is "true"), POST books
    an event as Pending, PUT sets a booking's status, DELETE removes a
    booking its owner names. */
module BookingsRoute {
  import opened Common
  import opened Seqs

  /** A document of the `bookings` collection. `userId` is the owner's
      identity string exactly as the `x-user-id` header carried it. */
  datatype Booking = Booking(
    id: Id,
    userId: string,
    eventType: string,
    eventName: string,
    guestCount: string,
    date: string,
    time: string,
    budget: string,
    notes: string,
    organizerPreference: string,
    status: string,
    createdAt: int,
    updatedAt: Option<int>)

  /** The JSON body of a POST: the wizard's fields, plus any `status` the
      client may have sent. */
  datatype BookingData = BookingData(
    eventType: string,
    eventName: string,
    guestCount: string,
    date: string,
    time: string,
    budget: string,
    notes: Option<string>,
    organizerPreference: string,
    status: Option<string>)

  /** POST's reply `{ id, ...bookingData, status: "Pending" }`. */
  datatype Created = Created(id: Id, data: BookingData, status: string)

  function CreatedAtKey(b: Booking): int {
    b.createdAt
  }

  /** The `find({ userId })` filter of a non-admin GET. */
  function OwnedBy(userId: string): Booking -> bool {
    (b: Booking) => b.userId == userId
  }

  function HasId(id: Id): Booking -> bool {
    (b: Booking) => b.id == id
  }

  /** The complement of DELETE's `{ _id, userId }` filter. */
  function NotIdAndOwner(id: Id, userId: string): Booking -> bool {
    (b: Booking) => !(b.id == id && b.userId == userId)
  }

  ghost predicate IdsUnique(bookings: seq<Booking>) {
    forall i, j :: 0 <= i < j < |bookings| ==> bookings[i].id != bookings[j].id
  }

  /** GET: 401 without a truthy `x-user-id`; otherwise every booking for an
      admin caller (`x-is-admin` exactly "true") and the caller's own
      bookings for anyone else, newest first. */
  function ListBookings(bookings: seq<Booking>, userId: Option<string>, isAdmin: Option<string>)
    : (r: Response<seq<Booking>>)
    ensures !Truthy(userId) ==> r == Fail(401, "Unauthorized")
    ensures Truthy(userId) ==> r.Ok? && SortedDesc(r.body, CreatedAtKey)
    ensures Truthy(userId) && isAdmin == Some("true") ==> multiset(r.body) == multiset(bookings)
    ensures Truthy(userId) && isAdmin != Some("true") ==>
              && multiset(r.body) == multiset(Filter(bookings, OwnedBy(userId.value)))
              && (forall b :: b in r.body <==> b in bookings && b.userId == userId.value)
  {
    if !Truthy(userId) then Fail(401, "Unauthorized")
    else if isAdmin == Some("true") then Ok(SortDesc(bookings, CreatedAtKey))
    else
      OwnBookingsListed(bookings, userId.value);
      Ok(SortDesc(Filter(bookings, OwnedBy(userId.value)), CreatedAtKey))
  }

  /** A non-admin caller sees exactly the bookings whose owner is the
      header's user. */
  lemma OwnBookingsListed(bookings: seq<Booking>, userId: string)
    ensures forall b :: b in SortDesc(Filter(bookings, OwnedBy(userId)), CreatedAtKey) <==> b in bookings && b.userId == userId
  {
    FilterMembers(bookings, OwnedBy(userId));
    SortDescMembers(Filter(bookings, OwnedBy(userId)), CreatedAtKey);
  }

  /** The `bookings` collection. */
  class BookingTable {
    var bookings: seq<Booking>
    var nextId: Id

    ghost predicate Valid()
      reads this
    {
      (forall i :: 0 <= i < |bookings| ==> bookings[i].id < nextId) && IdsUnique(bookings)
    }

    constructor ()
      ensures Valid() && bookings == []
    {
      bookings := [];
      nextId := 0;
    }

    /** POST: books the event for the header's user as Pending, with `notes`
        defaulting to "". Any status the client sent is ignored. */
    method Post(userId: Option<string>, data: BookingData, now: int) returns (resp: Response<Created>)
      requires Valid()
      modifies this
      ensures Valid()
      ensures !Truthy(userId) ==> resp == Fail(401, "Unauthorized") && bookings == old(bookings)
      ensures Truthy(userId) ==>
                && bookings == old(bookings) + [Booking(old(nextId), userId.value, data.eventType, data.eventName,
                                                        data.guestCount, data.date, data.time, data.budget,
                                                        OrElse(data.notes, ""), data.organizerPreference,
                                                        "Pending", now, None)]
                && resp == Ok(Created(old(nextId), data, "Pending"))
    {
      if !Truthy(userId) {
        return Fail(401, "Unauthorized");
      }
      var id := nextId;
      var b := Booking(id, userId.value, data.eventType, data.eventName, data.guestCount, data.date, data.time,
                       data.budget, OrElse(data.notes, ""), data.organizerPreference, "Pending", now, None);
      bookings := bookings + [b];
      nextId := nextId + 1;
      resp := Ok(Created(id, data, "Pending"));
    }

    /** PUT: `updateOne({ _id }, { $set: { status, updatedAt } })`. Nobody's
        identity is checked. The reply's `modifiedCount` is 1 when a booking
        matched and one of the two fields actually changed. */
    method Put(bookingId: Option<Id>, status: Option<string>, now: int) returns (resp: Response<nat>)
      requires Valid()
      modifies this
      ensures Valid()
      ensures bookingId.None? || !Truthy(status) ==>
                resp == Fail(400, "Missing required fields") && bookings == old(bookings)
      ensures bookingId.Some? && Truthy(status) ==>
                && |bookings| == |old(bookings)|
                && (forall i :: 0 <= i < |bookings| ==>
                      bookings[i] == if old(bookings)[i].id == bookingId.value
                                     then old(bookings)[i].(status := status.value, updatedAt := Some(now))
                                     else old(bookings)[i])
                && resp.Ok?
                && (resp.body == 1 <==> exists i :: 0 <= i < |bookings| && old(bookings)[i].id == bookingId.value
                                                  && old(bookings)[i] != bookings[i])
                && resp.body <= 1
    {
      if bookingId.None? || !Truthy(status) {
        return Fail(400, "Missing required fields");
      }
      var found := FindFirst(bookings, HasId(bookingId.value));
      if found.None? {
        return Ok(0);
      }
      var k := found.value;
      var current := bookings[k];
      var updated := current.(status := status.value, updatedAt := Some(now));
      bookings := bookings[k := updated];
      resp := Ok(if updated != current then 1 else 0);
    }

    /** DELETE: `deleteOne({ _id, userId })`, so a booking goes only when both
        its id and its owner match; `deletedCount` says whether one did. */
    method Delete(bookingId: Option<Id>, userId: Option<string>) returns (resp: Response<nat>)
      requires Valid()
      modifies this
      ensures Valid()
      ensures bookingId.None? || !Truthy(userId) ==>
                resp == Fail(400, "Missing required fields") && bookings == old(bookings)
      ensures bookingId.Some? && Truthy(userId) ==>
                && bookings == Filter(old(bookings), NotIdAndOwner(bookingId.value, userId.value))
                && resp == Ok(|old(bookings)| - |bookings|)
                && resp.body <= 1
                && (resp.body == 1 <==> exists i :: 0 <= i < |old(bookings)| && old(bookings)[i].id == bookingId.value
                                                  && old(bookings)[i].userId == userId.value)
    {
      if bookingId.None? || !Truthy(userId) {
        return Fail(400, "Missing required fields");
      }
      var keep := NotIdAndOwner(bookingId.value, userId.value);
      var found := FindFirst(bookings, (b: Booking) => !keep(b));
      if found.None? {
        FilterAll(bookings, keep);
        return Ok(0);
      }
      var k := found.value;
      FilterRemovesOne(bookings, keep, k);
      bookings := bookings[..k] + bookings[k + 1..];
      resp := Ok(1);
    }
  }
}
