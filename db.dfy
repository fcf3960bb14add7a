/** The rows the booking and payment routes read and write, and the database
    that holds them: one map per table, keyed by the row's id. */
module Db {
  import opened Common

  datatype UserRow = UserRow(id: string, name: Option<string>, email: string, image: Option<string>)

  /** A steward's offering; `stewardUserId` is the user behind the offering's
      steward profile. */
  datatype ServiceOffering = ServiceOffering(
    id: string,
    title: string,
    category: string,
    price: real,
    currency: string,
    pricingType: string,
    stewardUserId: string)

  /** The five states of a task. */
  datatype TaskStatus = Open | Assigned | InProgress | Done | Cancelled

  /** The name under which the database stores a task state. */
  function StatusName(s: TaskStatus): string {
    match s
    case Open => "OPEN"
    case Assigned => "ASSIGNED"
    case InProgress => "IN_PROGRESS"
    case Done => "DONE"
    case Cancelled => "CANCELLED"
  }

  /** A booking as the server stores it. `scheduledStart` and `createdAt` are
      instants (milliseconds since the epoch). */
  datatype Task = Task(
    id: string,
    clientId: string,
    stewardId: string,
    category: string,
    description: string,
    address: Option<string>,
    agreedPrice: real,
    currency: string,
    pricingType: string,
    scheduledStart: int,
    status: TaskStatus,
    createdAt: int)

  datatype TransactionType = Charge | Refund
  datatype TransactionStatus = Pending | Completed | Failed

  /** The `data` object of the gateway's verification reply. */
  datatype GatewayData = GatewayData(paymentType: string, raw: string)

  datatype Transaction = Transaction(
    id: string,
    taskId: string,
    amount: real,
    platformFee: real,
    currency: string,
    kind: TransactionType,
    status: TransactionStatus,
    providerTransactionId: Option<string>,
    paymentMethod: Option<string>,
    metadata: Option<GatewayData>)

  class Database {
    var users: map<string, UserRow>
    var offerings: map<string, ServiceOffering>
    var tasks: map<string, Task>
    var transactions: map<string, Transaction>

    /** Every row sits under its own id, and every reference names an
        existing row (the foreign keys of the schema). */
    ghost predicate Valid()
      reads this
    {
      && (forall k :: k in users ==> users[k].id == k)
      && (forall k :: k in offerings ==> offerings[k].id == k && offerings[k].stewardUserId in users)
      && (forall k :: k in tasks ==> tasks[k].id == k && tasks[k].clientId in users && tasks[k].stewardId in users)
      && (forall k :: k in transactions ==> transactions[k].id == k && transactions[k].taskId in tasks)
    }

    constructor (users: map<string, UserRow>, offerings: map<string, ServiceOffering>)
      requires forall k :: k in users ==> users[k].id == k
      requires forall k :: k in offerings ==> offerings[k].id == k && offerings[k].stewardUserId in users
      ensures Valid()
      ensures this.users == users && this.offerings == offerings
      ensures tasks == map[] && transactions == map[]
    {
      this.users := users;
      this.offerings := offerings;
      tasks := map[];
      transactions := map[];
    }
  }
}
