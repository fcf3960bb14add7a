/** The client-side booking: its five states and the record the in-memory
    bookings store keeps. */
module BookingTypes {
  import opened Common
  import Catalog

  datatype BookingStatus = Pending | Confirmed | InProgress | Completed | Cancelled

  function StatusName(s: BookingStatus): string {
    match s
    case Pending => "PENDING"
    case Confirmed => "CONFIRMED"
    case InProgress => "IN_PROGRESS"
    case Completed => "COMPLETED"
    case Cancelled => "CANCELLED"
  }

  /** A booking of the client store. `service` is absent when the store was
      asked for an id the catalog does not hold; `scheduledDate` is the
      instant that the store formats as an ISO string. */
  datatype Booking = Booking(
    id: string,
    service: Option<Catalog.Service>,
    scheduledDate: int,
    scheduledTime: string,
    address: string,
    notes: Option<string>,
    status: BookingStatus)
}
