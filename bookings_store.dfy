/** The client's in-memory bookings store: bookings made from the static
    service catalog, newest first. */
module BookingsStore {
  import opened Common
  import Catalog
  import opened BookingTypes

  /** `services.find(s => s.id === id)`: an entry with that id, if there is
      one; `FindServiceIsFirst` says which. */
  function FindService(catalog: seq<Catalog.Service>, id: string): (r: Option<Catalog.Service>)
    ensures r.None? <==> forall i :: 0 <= i < |catalog| ==> catalog[i].id != id
    ensures r.Some? ==> r.value in catalog && r.value.id == id
  {
    if catalog == [] then None
    else if catalog[0].id == id then Some(catalog[0])
    else FindService(catalog[1..], id)
  }

  /** The entry found is the first one with the id. */
  lemma {:induction false} FindServiceIsFirst(catalog: seq<Catalog.Service>, id: string, i: nat)
    requires i < |catalog| && catalog[i].id == id
    requires forall j :: 0 <= j < i ==> catalog[j].id != id
    ensures FindService(catalog, id) == Some(catalog[i])
  {
    if i > 0 {
      FindServiceIsFirst(catalog[1..], id, i - 1);
    }
  }

  class Store {
    /** The fixture the store looks services up in. Its entries reuse the
        catalog row type; the fixture's own type has no `isActive` or
        `createdAt`, and the store reads neither. */
    const catalog: seq<Catalog.Service>
    var bookings: seq<Booking>

    /** The store starts with no bookings. */
    constructor (catalog: seq<Catalog.Service>)
      ensures this.catalog == catalog && bookings == []
    {
      this.catalog := catalog;
      bookings := [];
    }

    /** `createBooking`. The random part of the id is the parameter
        `idSuffix`; `scheduledDate` is `None` for an invalid `Date`, whose ISO
        formatting throws, and then the result is `None` and nothing is
        stored. Otherwise a confirmed booking is put in front of the others
        and its id returned. */
    method CreateBooking(idSuffix: string, serviceId: string, scheduledDate: Option<int>,
                         scheduledTime: string, address: string, notes: Option<string>)
      returns (r: Option<string>)
      modifies this`bookings
      ensures scheduledDate.None? ==> r.None? && bookings == old(bookings)
      ensures scheduledDate.Some? ==>
        && r == Some("bkg-" + idSuffix)
        && |bookings| == |old(bookings)| + 1
        && bookings[1..] == old(bookings)
        && bookings[0] == Booking(r.value, FindService(catalog, serviceId), scheduledDate.value,
                                  scheduledTime, address, notes, Confirmed)
    {
      if scheduledDate.None? {
        return None;
      }
      var id := "bkg-" + idSuffix;
      var booking := Booking(id, FindService(catalog, serviceId), scheduledDate.value,
                             scheduledTime, address, notes, Confirmed);
      bookings := [booking] + bookings;
      r := Some(id);
    }
  }
}
