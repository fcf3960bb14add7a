/** The dashboard: the badge shown for a booking state, and the slice of the
    client stores the page reads. */
module Dashboard {
  import opened Common
  import opened BookingTypes
  import Auth

  datatype Badge = ConfirmedBadge | CompletedBadge | CancelledBadge | PendingBadge

  function Label(b: Badge): string {
    match b
    case ConfirmedBadge => "Confirmed"
    case CompletedBadge => "Completed"
    case CancelledBadge => "Cancelled"
    case PendingBadge => "Pending"
  }

  /** `getStatusBadge`: three states have their own badge; `PENDING` and
      every other string fall to the pending one. The bookings page uses
      the same switch. */
  function StatusBadge(status: string): (b: Badge)
    ensures b == ConfirmedBadge <==> status == "CONFIRMED"
    ensures b == CompletedBadge <==> status == "COMPLETED"
    ensures b == CancelledBadge <==> status == "CANCELLED"
    ensures b == PendingBadge <==> status !in {"CONFIRMED", "COMPLETED", "CANCELLED"}
  {
    match status
    case "CONFIRMED" => ConfirmedBadge
    case "COMPLETED" => CompletedBadge
    case "CANCELLED" => CancelledBadge
    case _ => PendingBadge
  }

  /** Of the five booking states, an in-progress booking is shown as
      pending; the other four show their own label. */
  lemma BadgeOfBookingStates(s: BookingStatus)
    ensures Label(StatusBadge(StatusName(s))) == match s
      case Pending => "Pending"
      case Confirmed => "Confirmed"
      case InProgress => "Pending"
      case Completed => "Completed"
      case Cancelled => "Cancelled"
  {
  }

  datatype UserData = UserData(
    isAuthenticated: bool,
    user: Option<Auth.User>,
    bookings: seq<Booking>,
    isSteward: bool)

  /** `useUserData`: at most the first three store bookings, in store order,
      and a steward flag that only a user whose flag is set makes true. */
  function UseUserData(isAuthenticated: bool, user: Option<Auth.User>, bookings: seq<Booking>): (d: UserData)
    ensures |d.bookings| == if |bookings| < 3 then |bookings| else 3
    ensures d.bookings <= bookings
    ensures d.isSteward <==> user.Some? && user.value.isSteward == Some(true)
    ensures d.isAuthenticated == isAuthenticated && d.user == user
  {
    var n := if |bookings| < 3 then |bookings| else 3;
    UserData(isAuthenticated, user, bookings[..n], user.Some? && user.value.isSteward == Some(true))
  }

  /** The page sends a visitor without an authenticated user to sign-in. */
  predicate MustSignIn(d: UserData) {
    !d.isAuthenticated || d.user.None?
  }

  /** The page reads the store through `useUserData`, which passes both
      fields through: the visitor is sent to sign-in exactly when the store
      is not authenticated or holds no user, whatever the bookings. */
  lemma SignInRedirect(isAuthenticated: bool, user: Option<Auth.User>, bookings: seq<Booking>)
    ensures MustSignIn(UseUserData(isAuthenticated, user, bookings)) <==> !isAuthenticated || user.None?
    ensures !MustSignIn(UseUserData(isAuthenticated, user, bookings)) ==>
      UseUserData(isAuthenticated, user, bookings).user == user && user.Some?
  {
  }
}
