/** The booking service: an append-only list of seat bookings that refuses a second
    booking of the same seat on the same bus for the same day. */
module BookingService {
  import opened Common

  /** A calendar day, compared field by field. */
  datatype Date = Date(year: int, month: int, day: int)

  datatype Booking = Booking(
    userId: string,
    busId: string,
    seatNumber: int,
    journeyDate: Date,
    agentId: Option<string>)

  /** Two bookings claim the same seat: same bus, same seat number, same day. The user
      and the agent do not take part. */
  predicate SameSeat(a: Booking, b: Booking) {
    a.busId == b.busId && a.seatNumber == b.seatNumber && a.journeyDate == b.journeyDate
  }

  /** The conflict scan of `create_booking`: does any stored booking claim the seat of `b`? */
  function SeatTaken(bookings: seq<Booking>, b: Booking): (taken: bool)
    ensures taken <==> exists i :: 0 <= i < |bookings| && SameSeat(bookings[i], b)
  {
    if bookings == [] then false
    else SameSeat(bookings[0], b) || SeatTaken(bookings[1..], b)
  }

  /** No seat is booked twice. */
  predicate NoDoubleBooking(bookings: seq<Booking>) {
    forall i, j :: 0 <= i < j < |bookings| ==> !SameSeat(bookings[i], bookings[j])
  }

  /** Appending a booking whose seat is free keeps every seat booked at most once. */
  lemma AppendFreeSeat(bookings: seq<Booking>, b: Booking)
    requires NoDoubleBooking(bookings) && !SeatTaken(bookings, b)
    ensures NoDoubleBooking(bookings + [b])
  {
    var s := bookings + [b];
    forall i, j | 0 <= i < j < |s| ensures !SameSeat(s[i], s[j]) {
      if j == |bookings| {
        assert s[i] == bookings[i] && s[j] == b;
      } else {
        assert s[i] == bookings[i] && s[j] == bookings[j];
      }
    }
  }

  /** The conflict check ignores the agent: the same seat booked through another agent,
      or through none, is still refused. */
  lemma {:induction false} AgentIgnored(bookings: seq<Booking>, b: Booking, agent: Option<string>)
    ensures SeatTaken(bookings, b.(agentId := agent)) == SeatTaken(bookings, b)
  {
    if bookings != [] {
      AgentIgnored(bookings[1..], b, agent);
    }
  }

  /** Once a booking is stored its seat is taken: the same request made again is refused,
      whoever makes it. */
  lemma RebookingRefused(bookings: seq<Booking>, b: Booking, other: Booking)
    requires SameSeat(b, other)
    ensures SeatTaken(bookings + [b], other)
  {
    assert (bookings + [b])[|bookings|] == b;
  }

  /** What a successful `create_booking` answers. */
  datatype Receipt = Receipt(message: string, booking: Booking)

  class BookingStore {
    var bookings: seq<Booking>

    constructor ()
      ensures bookings == []
    {
      bookings := [];
    }

    /** `GET /bookings`: the bookings in the order they were made. */
    method GetBookings() returns (r: seq<Booking>)
      ensures r == bookings
    {
      r := bookings;
    }

    /** `POST /bookings`. */
    method CreateBooking(b: Booking) returns (r: Result<Receipt>)
      modifies this
      ensures r.Err? <==> SeatTaken(old(bookings), b)
      ensures r.Err? ==> r == Err(400, "Seat already booked") && bookings == old(bookings)
      ensures r.Ok? ==> r.value == Receipt("Booking created successfully", b) && bookings == old(bookings) + [b]
      ensures NoDoubleBooking(old(bookings)) ==> NoDoubleBooking(bookings)
    {
      if SeatTaken(bookings, b) {
        return Err(400, "Seat already booked");
      }
      if NoDoubleBooking(bookings) {
        AppendFreeSeat(bookings, b);
      }
      bookings := bookings + [b];
      r := Ok(Receipt("Booking created successfully", b));
    }
  }
}
