/** The bus service: an in-memory table of buses keyed by id, seeded with two sample
    buses, and the handlers that list, look up, add and re-seat buses. */
module BusService {
  import opened Common

  /** The fields of a bus as posted (the ticket price is not modelled). */
  datatype BusForm = BusForm(
    busNumber: string,
    source: string,
    destination: string,
    totalSeats: int,
    availableSeats: int,
    departureTime: string,
    arrivalTime: string)

  /** A stored bus: the posted fields plus the id it is stored under. */
  datatype Bus = Bus(
    busId: string,
    busNumber: string,
    source: string,
    destination: string,
    totalSeats: int,
    availableSeats: int,
    departureTime: string,
    arrivalTime: string)

  /** `bus.dict()` with `bus_id` added. */
  function WithId(f: BusForm, id: string): Bus {
    Bus(id, f.busNumber, f.source, f.destination, f.totalSeats, f.availableSeats,
        f.departureTime, f.arrivalTime)
  }

  /** The two sample buses the service starts with. */
  const SampleBuses: seq<BusForm> := [
    BusForm("KA01AB1234", "Bangalore", "Mysore", 40, 40, "08:00", "12:00"),
    BusForm("KA02CD5678", "Bangalore", "Chennai", 45, 45, "10:00", "18:00")
  ]

  /** The sample buses start with every seat available. */
  lemma SampleBusesFull()
    ensures forall i :: 0 <= i < |SampleBuses| ==> SampleBuses[i].availableSeats == SampleBuses[i].totalSeats
  {
  }

  /** Every bus is stored under its own id. */
  predicate IdsMatchKeys(buses: map<string, Bus>) {
    forall k :: k in buses ==> buses[k].busId == k
  }

  /** `update_seats` on the table, as a transition: 404 for an unknown bus, 400 when the
      seat count exceeds the bus's total; otherwise only that bus's `availableSeats` is
      replaced. Any count up to the total is accepted, negative ones included. */
  function Reseat(buses: map<string, Bus>, id: string, seats: int): (r: Result<map<string, Bus>>)
    ensures r.Ok? <==> id in buses && seats <= buses[id].totalSeats
    ensures id !in buses ==> r == Err(404, "Bus not found")
    ensures id in buses && seats > buses[id].totalSeats ==> r == Err(400, "Seats cannot exceed total seats")
    ensures r.Ok? ==>
      && r.value.Keys == buses.Keys
      && r.value[id].availableSeats == seats
      && r.value[id] == buses[id].(availableSeats := seats)
      && forall k :: k in buses && k != id ==> r.value[k] == buses[k]
  {
    if id !in buses then Err(404, "Bus not found")
    else if seats > buses[id].totalSeats then Err(400, "Seats cannot exceed total seats")
    else Ok(buses[id := buses[id].(availableSeats := seats)])
  }

  /** A successful re-seat keeps every bus under its own id and leaves the bus within
      its total. */
  lemma ReseatKeepsInvariant(buses: map<string, Bus>, id: string, seats: int)
    requires IdsMatchKeys(buses) && Reseat(buses, id, seats).Ok?
    ensures IdsMatchKeys(Reseat(buses, id, seats).value)
    ensures Reseat(buses, id, seats).value[id].availableSeats <= Reseat(buses, id, seats).value[id].totalSeats
  {
    var after := Reseat(buses, id, seats).value;
    forall k | k in after ensures after[k].busId == k {
      assert k in buses;
    }
  }

  /** Setting the same seat count twice leaves the table as setting it once. */
  lemma ReseatIdempotent(buses: map<string, Bus>, id: string, seats: int)
    requires Reseat(buses, id, seats).Ok?
    ensures Reseat(Reseat(buses, id, seats).value, id, seats) == Reseat(buses, id, seats)
  {
    var once := Reseat(buses, id, seats).value;
    assert once[id].totalSeats == buses[id].totalSeats;
    assert once[id].(availableSeats := seats) == once[id];
    assert once[id := once[id]] == once;
  }

  /** One step of the seed loop: the next id is fresh, and storing a bus under it keeps
      the table an insertion-ordered dictionary of buses stored under their own ids. */
  lemma SeedStep(ids: seq<string>, i: nat, o: seq<string>, m: map<string, Bus>, bus: Bus)
    requires Distinct(ids) && i < |ids| && o == ids[..i]
    requires OrderedDict(o, m) && IdsMatchKeys(m) && bus.busId == ids[i]
    ensures ids[i] !in m
    ensures ids[..i + 1] == o + [ids[i]]
    ensures OrderedDict(o + [ids[i]], m[ids[i] := bus]) && IdsMatchKeys(m[ids[i] := bus])
  {
    assert ids[i] !in o by {
      forall j | 0 <= j < i ensures o[j] != ids[i] {
        assert o[j] == ids[j];
      }
    }
    assert ids[..i + 1] == ids[..i] + [ids[i]];
    ValuesInsert(o, m, ids[i], bus);
  }

  class BusStore {
    var buses: map<string, Bus>
    /** The order in which the ids were inserted. */
    var order: seq<string>

    predicate Valid()
      reads this
    {
      OrderedDict(order, buses) && IdsMatchKeys(buses)
    }

    /** The seed loop, with `ids` the fresh ids drawn for the sample buses. */
    constructor (ids: seq<string>)
      requires |ids| == |SampleBuses| && Distinct(ids)
      ensures Valid() && order == ids
      ensures forall i :: 0 <= i < |ids| ==> buses[ids[i]] == WithId(SampleBuses[i], ids[i])
      ensures forall k :: k in buses ==> buses[k].availableSeats == buses[k].totalSeats
    {
      SampleBusesFull();
      var m: map<string, Bus> := map[];
      var o: seq<string> := [];
      for i := 0 to |ids|
        invariant o == ids[..i]
        invariant OrderedDict(o, m) && IdsMatchKeys(m)
        invariant forall j :: 0 <= j < i ==> m[ids[j]] == WithId(SampleBuses[j], ids[j])
        invariant forall k :: k in m ==> m[k].availableSeats == m[k].totalSeats
      {
        var bus := WithId(SampleBuses[i], ids[i]);
        SeedStep(ids, i, o, m, bus);
        m := m[ids[i] := bus];
        o := o + [ids[i]];
      }
      buses := m;
      order := o;
    }

    /** `GET /buses`: the stored buses in insertion order. */
    method GetBuses() returns (r: seq<Bus>)
      requires Valid()
      ensures r == Values(order, buses)
      ensures forall b :: b in r <==> b in buses.Values
    {
      r := Values(order, buses);
      ValuesAreStored(order, buses);
    }

    /** `GET /buses/{bus_id}`. */
    method GetBus(id: string) returns (r: Result<Bus>)
      requires Valid()
      ensures r.Ok? <==> id in buses
      ensures r.Ok? ==> r.value == buses[id] && r.value.busId == id
      ensures r.Err? ==> r == Err(404, "Bus not found")
    {
      if id !in buses {
        return Err(404, "Bus not found");
      }
      r := Ok(buses[id]);
    }

    /** `POST /buses` with `id` the fresh id drawn for the new bus. */
    method CreateBus(form: BusForm, id: string) returns (b: Bus)
      requires Valid() && id !in buses
      modifies this
      ensures Valid()
      ensures b == WithId(form, id) && b.busId == id
      ensures buses == old(buses)[id := b] && order == old(order) + [id]
      ensures Values(order, buses) == Values(old(order), old(buses)) + [b]
    {
      b := WithId(form, id);
      ValuesInsert(order, buses, id, b);
      buses := buses[id := b];
      order := order + [id];
    }

    /** `PUT /buses/{bus_id}/seats`. */
    method UpdateSeats(id: string, seats: int) returns (r: Result<Bus>)
      requires Valid()
      modifies this
      ensures Valid() && order == old(order)
      ensures var t := Reseat(old(buses), id, seats);
        && (r.Ok? <==> t.Ok?)
        && (t.Ok? ==> buses == t.value && r.value == t.value[id])
        && (t.Err? ==> buses == old(buses) && r == Err(t.status, t.detail))
    {
      if id !in buses {
        return Err(404, "Bus not found");
      }
      var bus := buses[id];
      if seats > bus.totalSeats {
        return Err(400, "Seats cannot exceed total seats");
      }
      ReseatKeepsInvariant(buses, id, seats);
      buses := buses[id := bus.(availableSeats := seats)];
      r := Ok(buses[id]);
    }
  }
}
