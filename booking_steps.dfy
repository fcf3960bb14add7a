/** The three-step booking form on a service page: date and time, address,
    notes; then one booking in the client store. */
module BookingSteps {
  import opened Common
  import opened BookingTypes
  import BookingsStore

  /** `Math.min(s + 1, 3)`. */
  function NextStep(s: int): (r: int)
    ensures 1 <= s <= 3 ==> 1 <= r <= 3
    ensures s < 3 ==> r == s + 1
    ensures s >= 3 ==> r == 3
  {
    if s + 1 < 3 then s + 1 else 3
  }

  /** `Math.max(s - 1, 1)`. */
  function BackStep(s: int): (r: int)
    ensures 1 <= s <= 3 ==> 1 <= r <= 3
    ensures s > 1 ==> r == s - 1
    ensures s <= 1 ==> r == 1
  {
    if s - 1 > 1 then s - 1 else 1
  }

  /** Going forward and back again returns to the step left; the ends are
      fixed points. */
  lemma StepRoundTrip(s: int)
    requires 1 <= s <= 2
    ensures BackStep(NextStep(s)) == s
    ensures NextStep(NextStep(s)) == 3 && NextStep(3) == 3 && BackStep(1) == 1
  {
  }

  /** The guard before `createBooking`: both a date and an address. */
  predicate ReadyToSubmit(scheduledDate: string, address: string) {
    scheduledDate != "" && address != ""
  }

  datatype Navigation = Stay | ToSignIn | ToConfirmation(id: string)

  class Wizard {
    const serviceId: string
    var step: int
    var scheduledDate: string
    var scheduledTime: string
    var address: string
    var notes: string
    var isSubmitting: bool

    ghost predicate Valid()
      reads this
    {
      1 <= step <= 3
    }

    constructor (serviceId: string)
      ensures Valid()
      ensures this.serviceId == serviceId && step == 1
      ensures scheduledDate == "" && scheduledTime == "10:00" && address == "" && notes == ""
      ensures !isSubmitting
    {
      this.serviceId := serviceId;
      step := 1;
      scheduledDate := "";
      scheduledTime := "10:00";
      address := "";
      notes := "";
      isSubmitting := false;
    }

    method Next()
      requires Valid()
      modifies this`step
      ensures Valid()
      ensures step == NextStep(old(step))
    {
      step := NextStep(step);
    }

    method Back()
      requires Valid()
      modifies this`step
      ensures Valid()
      ensures step == BackStep(old(step))
    {
      step := BackStep(step);
    }

    method SetScheduledDate(v: string)
      modifies this`scheduledDate
      ensures scheduledDate == v
    {
      scheduledDate := v;
    }

    method SetScheduledTime(v: string)
      modifies this`scheduledTime
      ensures scheduledTime == v
    {
      scheduledTime := v;
    }

    method SetAddress(v: string)
      modifies this`address
      ensures address == v
    {
      address := v;
    }

    method SetNotes(v: string)
      modifies this`notes
      ensures notes == v
    {
      notes := v;
    }

    /** The Confirm button, shown on the last step, is enabled exactly when
        no submission runs and `Submit` would get past its guard for a
        signed-in client. */
    predicate ConfirmEnabled(): (r: bool)
      reads this
      ensures r <==> !isSubmitting && ReadyToSubmit(scheduledDate, address)
    {
      !isSubmitting && scheduledDate != "" && address != ""
    }

    /** `submit`. `parseDate` is `new Date(...)` with `None` for an invalid
        date, and `idSuffix` the random part of the new booking's id. */
    method Submit(isAuthenticated: bool, store: BookingsStore.Store, parseDate: string -> Option<int>,
                  idSuffix: string)
      returns (nav: Navigation)
      modifies this`isSubmitting, store`bookings
      ensures !isAuthenticated ==> nav == ToSignIn
      ensures isAuthenticated && !ReadyToSubmit(scheduledDate, address) ==> nav == Stay
      ensures !(isAuthenticated && ReadyToSubmit(scheduledDate, address)) ==>
        store.bookings == old(store.bookings) && isSubmitting == old(isSubmitting)
      ensures isAuthenticated && ReadyToSubmit(scheduledDate, address) ==>
        && !isSubmitting
        && match parseDate(scheduledDate)
           case None => nav == Stay && store.bookings == old(store.bookings)
           case Some(start) =>
             && nav == ToConfirmation("bkg-" + idSuffix)
             && store.bookings == [Booking("bkg-" + idSuffix, BookingsStore.FindService(store.catalog, serviceId),
                                           start, scheduledTime, address, Some(notes), Confirmed)]
                                  + old(store.bookings)
    {
      if !isAuthenticated {
        return ToSignIn;
      }
      if !ReadyToSubmit(scheduledDate, address) {
        return Stay;
      }
      isSubmitting := true;
      var id := store.CreateBooking(idSuffix, serviceId, parseDate(scheduledDate), scheduledTime, address, Some(notes));
      nav := if id.Some? then ToConfirmation(id.value) else Stay;
      isSubmitting := false;
    }
  }
}
