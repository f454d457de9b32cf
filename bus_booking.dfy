/** The bus-booking service: bookings keyed by a generated booking id, created as
    confirmed unless the request says otherwise, looked up, and cancelled in place. */
module BusBooking {
  import opened Common

  /** The fields posted to `POST /bookings`; an absent status means `"confirmed"`. */
  datatype BookingForm = BookingForm(
    userId: string,
    busId: string,
    seatNumber: int,
    journeyDate: string,
    status: Option<string>)

  /** A stored booking: the posted fields, the id and the creation time. */
  datatype Booking = Booking(
    bookingId: string,
    userId: string,
    busId: string,
    seatNumber: int,
    journeyDate: string,
    status: string,
    createdAt: string)

  const Confirmed: string := "confirmed"
  const Cancelled: string := "cancelled"

  /** The record `create_booking` stores for `form` under `id`, created at `now`. */
  function NewBooking(form: BookingForm, id: string, now: string): (b: Booking)
    ensures b.bookingId == id && b.createdAt == now
    ensures b.userId == form.userId && b.busId == form.busId
    ensures b.seatNumber == form.seatNumber && b.journeyDate == form.journeyDate
    ensures b.status == if form.status.Some? then form.status.value else Confirmed
  {
    var status := match form.status case Some(s) => s case None => Confirmed;
    Booking(id, form.userId, form.busId, form.seatNumber, form.journeyDate, status, now)
  }

  /** `cancel_booking` on the table, as a transition: 404 for an unknown id, otherwise
      only that booking's status becomes `"cancelled"`. */
  function Cancel(bookings: map<string, Booking>, id: string): (r: Result<map<string, Booking>>)
    ensures r.Ok? <==> id in bookings
    ensures r.Err? ==> r == Err(404, "Booking not found")
    ensures r.Ok? ==>
      && r.value.Keys == bookings.Keys
      && r.value[id] == bookings[id].(status := Cancelled)
      && forall k :: k in bookings && k != id ==> r.value[k] == bookings[k]
  {
    if id !in bookings then Err(404, "Booking not found")
    else Ok(bookings[id := bookings[id].(status := Cancelled)])
  }

  /** Cancelling twice leaves the table as cancelling once. */
  lemma CancelIdempotent(bookings: map<string, Booking>, id: string)
    requires id in bookings
    ensures Cancel(Cancel(bookings, id).value, id) == Cancel(bookings, id)
  {
    var once := Cancel(bookings, id).value;
    assert once[id].(status := Cancelled) == once[id];
    assert once[id := once[id]] == once;
  }

  /** Cancelling two bookings gives the same table in either order. */
  lemma CancelCommutes(bookings: map<string, Booking>, a: string, b: string)
    requires a in bookings && b in bookings
    ensures Cancel(Cancel(bookings, a).value, b) == Cancel(Cancel(bookings, b).value, a)
  {
    var ab := Cancel(Cancel(bookings, a).value, b).value;
    var ba := Cancel(Cancel(bookings, b).value, a).value;
    assert forall k :: k in ab ==> ab[k] == ba[k];
    assert ab == ba;
  }

  class BookingTable {
    var bookings: map<string, Booking>
    /** The order in which the ids were inserted. */
    var order: seq<string>

    predicate Valid()
      reads this
    {
      OrderedDict(order, bookings) && forall k :: k in bookings ==> bookings[k].bookingId == k
    }

    constructor ()
      ensures Valid() && bookings == map[] && order == []
    {
      bookings := map[];
      order := [];
    }

    /** `GET /bookings`: the bookings in the order they were created. */
    method GetBookings() returns (r: seq<Booking>)
      requires Valid()
      ensures r == Values(order, bookings)
      ensures forall b :: b in r <==> b in bookings.Values
    {
      r := Values(order, bookings);
      ValuesAreStored(order, bookings);
    }

    /** `POST /bookings` with `id` the fresh id drawn and `now` the creation time. */
    method CreateBooking(form: BookingForm, id: string, now: string) returns (b: Booking)
      requires Valid() && id !in bookings
      modifies this
      ensures Valid()
      ensures b == NewBooking(form, id, now)
      ensures bookings == old(bookings)[id := b] && order == old(order) + [id]
      ensures Values(order, bookings) == Values(old(order), old(bookings)) + [b]
    {
      b := NewBooking(form, id, now);
      ValuesInsert(order, bookings, id, b);
      bookings := bookings[id := b];
      order := order + [id];
    }

    /** `GET /bookings/{booking_id}`. */
    method GetBooking(id: string) returns (r: Result<Booking>)
      requires Valid()
      ensures r.Ok? <==> id in bookings
      ensures r.Ok? ==> r.value == bookings[id] && r.value.bookingId == id
      ensures r.Err? ==> r == Err(404, "Booking not found")
    {
      if id !in bookings {
        return Err(404, "Booking not found");
      }
      r := Ok(bookings[id]);
    }

    /** `DELETE /bookings/{booking_id}`: the booking stays in the table, marked cancelled. */
    method CancelBooking(id: string) returns (r: Result<Booking>)
      requires Valid()
      modifies this
      ensures Valid() && order == old(order)
      ensures var t := Cancel(old(bookings), id);
        && (r.Ok? <==> t.Ok?)
        && (t.Ok? ==> bookings == t.value && r.value == t.value[id])
        && (t.Err? ==> bookings == old(bookings) && r == Err(t.status, t.detail))
    {
      if id !in bookings {
        return Err(404, "Booking not found");
      }
      var booking := bookings[id];
      bookings := bookings[id := booking.(status := Cancelled)];
      r := Ok(bookings[id]);
    }
  }
}
