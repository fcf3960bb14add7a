/** `/api/bookings`: the caller's tasks listed as bookings (`GET`), and a new
    task created from a service offering (`POST`). */
module BookingsApi {
  import opened Common
  import opened Ordering
  import opened Db
  import BookingTypes

  /** `mapStatus`: the task state, as stored, to the booking state shown to
      clients. */
  function MapStatus(status: string): (r: BookingTypes.BookingStatus)
    ensures r == BookingTypes.Confirmed <==> status == "ASSIGNED"
    ensures r == BookingTypes.InProgress <==> status == "IN_PROGRESS"
    ensures r == BookingTypes.Completed <==> status == "DONE"
    ensures r == BookingTypes.Cancelled <==> status == "CANCELLED"
    ensures r == BookingTypes.Pending <==> status !in {"ASSIGNED", "IN_PROGRESS", "DONE", "CANCELLED"}
  {
    match status
    case "OPEN" => BookingTypes.Pending
    case "ASSIGNED" => BookingTypes.Confirmed
    case "IN_PROGRESS" => BookingTypes.InProgress
    case "DONE" => BookingTypes.Completed
    case "CANCELLED" => BookingTypes.Cancelled
    case _ => BookingTypes.Pending
  }

  /** The five task states map onto five distinct booking states. */
  lemma MapStatusOfTaskStates(s: TaskStatus)
    ensures MapStatus(StatusName(s)) == match s
      case Open => BookingTypes.Pending
      case Assigned => BookingTypes.Confirmed
      case InProgress => BookingTypes.InProgress
      case Done => BookingTypes.Completed
      case Cancelled => BookingTypes.Cancelled
    ensures forall t: TaskStatus :: t != s ==> MapStatus(StatusName(t)) != MapStatus(StatusName(s))
  {
  }

  datatype CategoryView = CategoryView(id: string, name: string, slug: string)
  datatype StewardView = StewardView(id: string, name: Option<string>, image: Option<string>, rating: int)
  datatype ServiceView = ServiceView(
    id: string,
    title: string,
    description: string,
    price: real,
    currency: string,
    duration: int,
    images: seq<string>,
    category: CategoryView,
    steward: StewardView)

  /** A booking as the API returns it. The date and time strings are
      formatted from `scheduledStart`; the formatting is not modelled. */
  datatype ApiBooking = ApiBooking(
    id: string,
    status: BookingTypes.BookingStatus,
    scheduledStart: int,
    address: Option<string>,
    notes: string,
    service: ServiceView)

  /** `mapTaskToBooking`, given the task's steward. */
  function MapTaskToBooking(task: Task, steward: UserRow): ApiBooking {
    ApiBooking(
      task.id,
      MapStatus(StatusName(task.status)),
      task.scheduledStart,
      task.address,
      task.description,
      ServiceView(
        task.id,
        task.category,
        task.description,
        task.agreedPrice,
        task.currency,
        60,
        if Truthy(steward.image) then [steward.image.value] else [],
        CategoryView(Lower(task.category), task.category, Lower(task.category)),
        StewardView(steward.id, steward.name, steward.image, 0)))
  }

  /** What a client sees of a task: its id, state, price and currency, and a
      category whose id and slug are the lower-cased category name. */
  lemma BookingViewOfTask(task: Task, steward: UserRow)
    ensures var b := MapTaskToBooking(task, steward);
      && b.id == task.id
      && b.status == MapStatus(StatusName(task.status))
      && (task.status == Open ==> b.status == BookingTypes.Pending)
      && b.service.price == task.agreedPrice && b.service.currency == task.currency
      && b.service.category.id == b.service.category.slug == Lower(task.category)
      && Lower(b.service.category.slug) == b.service.category.slug
      && b.service.category.name == task.category
      && |b.service.images| <= 1
  {
    var c := task.category;
    assert forall i :: 0 <= i < |c| ==> LowerChar(LowerChar(c[i])) == LowerChar(c[i]);
  }

  /** The creation instant as a sort key. */
  function CreatedAt(t: Task): real {
    t.createdAt as real
  }

  /** `t` is a row of `tasks` that belongs to client `uid`. */
  predicate OwnedRow(tasks: map<string, Task>, uid: string, t: Task) {
    t.id in tasks && tasks[t.id] == t && t.clientId == uid
  }

  function ToBookings(rows: seq<Task>, users: map<string, UserRow>): (r: seq<ApiBooking>)
    requires forall i :: 0 <= i < |rows| ==> rows[i].stewardId in users
    ensures |r| == |rows|
    ensures forall i :: 0 <= i < |rows| ==> r[i] == MapTaskToBooking(rows[i], users[rows[i].stewardId])
  {
    seq(|rows|, i requires 0 <= i < |rows| => MapTaskToBooking(rows[i], users[rows[i].stewardId]))
  }

  datatype ListResponse =
    | ListUnauthorized                                // 401
    | ListFailed                                      // 500 'Failed to fetch bookings'
    | Listed(data: seq<ApiBooking>, page: int, total: int)

  /** `GET`: the caller's tasks, newest first, each once. `dbFails` stands
      for a query that throws. */
  method GetBookings(db: Database, session: Option<string>, dbFails: bool) returns (resp: ListResponse, rows: seq<Task>)
    requires db.Valid()
    ensures session.None? ==> resp == ListUnauthorized && rows == []
    ensures session.Some? && dbFails ==> resp == ListFailed && rows == []
    ensures session.Some? && !dbFails ==> forall t :: multiset(rows)[t] == if OwnedRow(db.tasks, session.value, t) then 1 else 0
    ensures Sorted(rows, CreatedAt, Desc)
    ensures session.Some? ==> forall i :: 0 <= i < |rows| ==> rows[i].stewardId in db.users
    ensures session.Some? && !dbFails ==> resp == Listed(ToBookings(rows, db.users), 1, |rows|)
  {
    if session.None? {
      return ListUnauthorized, [];
    }
    if dbFails {
      return ListFailed, [];
    }
    var uid := session.value;
    var tasks := db.tasks;
    var keys := tasks.Keys;
    var acc: seq<Task> := [];
    while keys != {}
      invariant keys <= tasks.Keys
      invariant forall t :: multiset(acc)[t] == if OwnedRow(tasks, uid, t) && t.id !in keys then 1 else 0
      decreases keys
    {
      var k :| k in keys;
      keys := keys - {k};
      if tasks[k].clientId == uid {
        acc := acc + [tasks[k]];
      }
    }
    rows := SortBy(acc, CreatedAt, Desc);
    forall i | 0 <= i < |rows| ensures rows[i].stewardId in db.users {
      assert multiset(rows)[rows[i]] > 0;
    }
    resp := Listed(ToBookings(rows, db.users), 1, |rows|);
  }

  /** The request body of `POST`; every field may be missing. */
  datatype BookingRequest = BookingRequest(
    serviceId: Option<string>,
    scheduledDate: Option<string>,
    scheduledTime: Option<string>,
    address: Option<string>,
    notes: Option<string>)

  /** The required-field check: `serviceId` and `scheduledDate` are present
      and non-empty; `address` is not checked. */
  predicate FieldsPresent(r: BookingRequest) {
    Truthy(r.serviceId) && Truthy(r.scheduledDate)
  }

  datatype CreateResponse =
    | CreateUnauthorized    // 401
    | MissingFields         // 400
    | ServiceNotFound       // 404
    | CreateFailed          // 500 'Failed to create booking'
    | Created(data: ApiBooking)

  /** `t` is the task `POST` creates as row `id` for client `clientId`: a
      snapshot of the offering's price, currency, category and pricing type,
      its steward, and the request's notes (or else the offering's title),
      address and date. */
  predicate IsSnapshot(t: Task, id: string, clientId: string, offering: ServiceOffering,
                       request: BookingRequest, scheduledStart: int, now: int) {
    && t.id == id && t.clientId == clientId && t.stewardId == offering.stewardUserId
    && t.agreedPrice == offering.price && t.currency == offering.currency
    && t.category == offering.category && t.pricingType == offering.pricingType
    && t.description == (if Truthy(request.notes) then request.notes.value else offering.title)
    && t.address == request.address && t.scheduledStart == scheduledStart
    && t.status == Open && t.createdAt == now
  }

  /** `POST`. The session is the caller's user id; `body` is `None` when the
      body is not JSON; `parseDate` is `new Date(...)` (`None` for an invalid
      date, which the database refuses); `dbFails` stands for a lookup or an
      insert that throws; `freshId` and `now` are the id and the instant the
      database assigns. */
  method PostBooking(db: Database, session: Option<string>, body: Option<BookingRequest>,
                     parseDate: string -> Option<int>, dbFails: bool, freshId: string, now: int)
    returns (resp: CreateResponse)
    requires db.Valid()
    requires freshId !in db.tasks
    modifies db
    ensures db.Valid()
    ensures db.users == old(db.users) && db.offerings == old(db.offerings)
    ensures db.transactions == old(db.transactions)
    ensures session.None? ==> resp == CreateUnauthorized
    ensures session.Some? && body.None? ==> resp == CreateFailed
    ensures session.Some? && body.Some? && !FieldsPresent(body.value) ==> resp == MissingFields
    ensures session.Some? && body.Some? && FieldsPresent(body.value) && dbFails ==> resp == CreateFailed
    ensures session.Some? && body.Some? && FieldsPresent(body.value) && !dbFails
            && body.value.serviceId.value !in db.offerings
            ==> resp == ServiceNotFound
    ensures session.Some? && body.Some? && FieldsPresent(body.value) && !dbFails
            && body.value.serviceId.value in db.offerings
            && (parseDate(body.value.scheduledDate.value).None? || session.value !in db.users)
            ==> resp == CreateFailed
    ensures session.Some? && body.Some? && FieldsPresent(body.value) && !dbFails
            && body.value.serviceId.value in db.offerings
            && parseDate(body.value.scheduledDate.value).Some? && session.value in db.users
            ==> resp.Created?
    ensures !resp.Created? ==> db.tasks == old(db.tasks)
    ensures resp.Created? ==>
      && !dbFails && session.Some? && body.Some? && body.value.serviceId.Some? && body.value.scheduledDate.Some?
      && body.value.serviceId.value in db.offerings
      && parseDate(body.value.scheduledDate.value).Some?
      && freshId in db.tasks && db.tasks == old(db.tasks)[freshId := db.tasks[freshId]]
      && IsSnapshot(db.tasks[freshId], freshId, session.value, db.offerings[body.value.serviceId.value], body.value,
                    parseDate(body.value.scheduledDate.value).value, now)
      && resp.data == MapTaskToBooking(db.tasks[freshId], db.users[db.tasks[freshId].stewardId])
  {
    if session.None? {
      return CreateUnauthorized;
    }
    if body.None? {
      return CreateFailed;
    }
    var request := body.value;
    if !FieldsPresent(request) {
      return MissingFields;
    }
    if dbFails {
      return CreateFailed;
    }
    if request.serviceId.value !in db.offerings {
      return ServiceNotFound;
    }
    var offering := db.offerings[request.serviceId.value];
    var start := parseDate(request.scheduledDate.value);
    if start.None? || session.value !in db.users {
      return CreateFailed;
    }
    var task := Task(freshId, session.value, offering.stewardUserId, offering.category,
                     OrElse(request.notes, offering.title), request.address,
                     offering.price, offering.currency, offering.pricingType,
                     start.value, Open, now);
    db.tasks := db.tasks[freshId := task];
    resp := Created(MapTaskToBooking(task, db.users[task.stewardId]));
  }
}
