/** The payment routes: `POST /api/payments/initiate` records a pending
    charge for a task and asks the gateway for a payment link;
    `GET /api/payments/verify` is the gateway's redirect back, which settles
    the charge once the gateway confirms it. The gateway is an oracle: a
    function from the request sent to the reply received. */
module Payments {
  import opened Common
  import opened Db

  /** What `initiatePayment` is asked to charge. */
  datatype ChargeRequest = ChargeRequest(
    txRef: string,
    amount: real,
    currency: string,
    redirectUrl: string,
    customerEmail: string,
    customerName: string,
    title: string,
    description: string,
    logo: string)

  datatype InitiateReply = Replied(status: string, link: string) | InitiateThrew

  datatype InitiateRequest = InitiateRequest(taskId: Option<string>)

  datatype InitiateResponse =
    | InitiateUnauthorized   // 401
    | TaskIdRequired         // 400
    | TaskNotFound           // 404
    | NotTaskClient          // 403
    | PaymentLink(link: string)
    | InitiateFailed         // 500 'Failed to initiate payment'
    | InitiateError          // 500 'Internal Server Error'

  /** The ten percent platform fee, computed exactly. */
  function PlatformFee(amount: real): (fee: real)
    ensures fee * 10.0 == amount
    ensures amount >= 0.0 ==> 0.0 <= fee <= amount
  {
    amount / 10.0
  }

  /** `t` is the charge recorded for `task` under id `id`. */
  predicate IsPendingCharge(t: Transaction, id: string, task: Task) {
    && t.id == id && t.taskId == task.id
    && t.amount == task.agreedPrice && t.platformFee == PlatformFee(task.agreedPrice)
    && t.currency == task.currency && t.kind == Charge && t.status == Pending
    && t.providerTransactionId.None? && t.paymentMethod.None? && t.metadata.None?
  }

  /** The request sent to the gateway for the charge `txRef` of `task`. */
  predicate IsChargeRequest(r: ChargeRequest, txRef: string, task: Task, client: UserRow, appUrl: string) {
    && r.txRef == txRef && r.amount == task.agreedPrice && r.currency == task.currency
    && r.redirectUrl == appUrl + "/api/payments/verify"
    && r.customerEmail == client.email && r.customerName == OrElse(client.name, "Client")
    && r.title == "Chazon Service Payment"
    && r.description == "Payment for task: " + task.category
    && r.logo == "https://chazon.com/logo.png"
  }

  /** `POST /api/payments/initiate`. `body` is `None` when it is not JSON;
      `dbFails` stands for a lookup or an insert that throws; `sent` is the
      request passed to the gateway, if any; `freshId` is the id the database
      assigns to the new transaction. */
  method Initiate(db: Database, session: Option<string>, body: Option<InitiateRequest>,
                  gateway: ChargeRequest -> InitiateReply, appUrl: string, dbFails: bool, freshId: string)
    returns (resp: InitiateResponse, sent: Option<ChargeRequest>)
    requires db.Valid()
    requires freshId !in db.transactions
    modifies db
    ensures db.Valid()
    ensures db.users == old(db.users) && db.offerings == old(db.offerings) && db.tasks == old(db.tasks)
    ensures session.None? ==> resp == InitiateUnauthorized
    ensures session.Some? && body.None? ==> resp == InitiateError
    ensures session.Some? && body.Some? && !Truthy(body.value.taskId) ==> resp == TaskIdRequired
    ensures session.Some? && body.Some? && Truthy(body.value.taskId) && dbFails ==> resp == InitiateError
    ensures session.Some? && body.Some? && Truthy(body.value.taskId) && !dbFails
            && body.value.taskId.value !in db.tasks
            ==> resp == TaskNotFound
    ensures session.Some? && body.Some? && Truthy(body.value.taskId) && !dbFails
            && body.value.taskId.value in db.tasks
            && db.tasks[body.value.taskId.value].clientId != session.value
            ==> resp == NotTaskClient
    // Past every guard, the charge is recorded and the gateway is asked.
    ensures session.Some? && body.Some? && Truthy(body.value.taskId) && !dbFails
            && body.value.taskId.value in db.tasks
            && db.tasks[body.value.taskId.value].clientId == session.value
            ==> sent.Some?
    // A transaction is stored exactly when a request reaches the gateway,
    // whatever the gateway then answers.
    ensures sent.None? ==> db.transactions == old(db.transactions)
    ensures sent.None? <==> resp in {InitiateUnauthorized, TaskIdRequired, TaskNotFound, NotTaskClient}
                              || (session.Some? && body.None?)
                              || (session.Some? && body.Some? && Truthy(body.value.taskId) && dbFails)
    ensures sent.Some? ==>
      && !dbFails && session.Some? && body.Some? && body.value.taskId.Some? && body.value.taskId.value in db.tasks
      && db.tasks[body.value.taskId.value].clientId == session.value
      && freshId in db.transactions
      && db.transactions == old(db.transactions)[freshId := db.transactions[freshId]]
      && IsPendingCharge(db.transactions[freshId], freshId, db.tasks[body.value.taskId.value])
      && IsChargeRequest(sent.value, freshId, db.tasks[body.value.taskId.value], db.users[session.value], appUrl)
      && match gateway(sent.value)
         case Replied(status, link) =>
           resp == if status == "success" then PaymentLink(link) else InitiateFailed
         case InitiateThrew => resp == InitiateError
  {
    sent := None;
    if session.None? {
      return InitiateUnauthorized, sent;
    }
    if body.None? {
      return InitiateError, sent;
    }
    var taskId := body.value.taskId;
    if !Truthy(taskId) {
      return TaskIdRequired, sent;
    }
    if dbFails {
      return InitiateError, sent;
    }
    if taskId.value !in db.tasks {
      return TaskNotFound, sent;
    }
    var task := db.tasks[taskId.value];
    if task.clientId != session.value {
      return NotTaskClient, sent;
    }
    var tx := Transaction(freshId, task.id, task.agreedPrice, PlatformFee(task.agreedPrice),
                          task.currency, Charge, Pending, None, None, None);
    db.transactions := db.transactions[freshId := tx];
    var client := db.users[task.clientId];
    var request := ChargeRequest(freshId, task.agreedPrice, task.currency,
                                 appUrl + "/api/payments/verify",
                                 client.email, OrElse(client.name, "Client"),
                                 "Chazon Service Payment",
                                 "Payment for task: " + task.category,
                                 "https://chazon.com/logo.png");
    sent := Some(request);
    match gateway(request)
    case InitiateThrew =>
      resp := InitiateError;
    case Replied(status, link) =>
      resp := if status == "success" then PaymentLink(link) else InitiateFailed;
  }

  /** `t` is a pending charge for task `taskId`. */
  predicate OpenChargeFor(t: Transaction, taskId: string) {
    t.taskId == taskId && t.kind == Charge && t.status == Pending
  }

  /** The number of pending charges recorded for task `taskId`. */
  function PendingCharges(txs: map<string, Transaction>, taskId: string): nat {
    |set k | k in txs && OpenChargeFor(txs[k], taskId)|
  }

  /** Initiating again for a task adds another pending charge: nothing checks
      for one already open. */
  lemma {:induction false} RepeatedInitiateAddsCharge(txs: map<string, Transaction>, id: string, task: Task, t: Transaction)
    requires id !in txs && IsPendingCharge(t, id, task)
    ensures PendingCharges(txs[id := t], task.id) == PendingCharges(txs, task.id) + 1
  {
    var grown := txs[id := t];
    var before := set k | k in txs && OpenChargeFor(txs[k], task.id);
    var after := set k | k in grown && OpenChargeFor(grown[k], task.id);
    assert after == before + {id};
    assert id !in before;
  }

  /** The gateway's verdict on a provider transaction id. */
  datatype VerifyReply = Verified(status: string, data: GatewayData) | VerifyThrew

  datatype VerifyResponse =
    | PaymentFailed              // redirect to /bookings?payment=failed
    | InvalidCallback            // 400 'Invalid callback params'
    | PaymentSucceeded(tid: string)  // redirect to /bookings?payment=success&tid=...
    | PaymentError               // redirect to /bookings?payment=error

  /** The statuses of the redirect's query string that the handler goes on
      to verify. */
  predicate AcceptedStatus(status: Option<string>) {
    status == Some("successful") || status == Some("completed")
  }

  /** The row the update writes: completed, with the provider's id, the
      payment method and the gateway's data. */
  function Settled(t: Transaction, transactionId: string, data: GatewayData): (s: Transaction)
    ensures s.id == t.id && s.taskId == t.taskId && s.amount == t.amount && s.platformFee == t.platformFee
    ensures s.currency == t.currency && s.kind == t.kind
    ensures s.status == Completed && s.providerTransactionId == Some(transactionId)
    ensures s.paymentMethod == Some(data.paymentType) && s.metadata == Some(data)
  {
    t.(status := Completed, providerTransactionId := Some(transactionId),
       paymentMethod := Some(data.paymentType), metadata := Some(data))
  }

  /** The callback settles row `txRef`: its status is accepted, both ids are
      present, the row exists and the gateway's verdict is a success. */
  predicate CallbackSettles(txs: map<string, Transaction>, status: Option<string>, txRef: Option<string>,
                            transactionId: Option<string>, verify: string -> VerifyReply) {
    && AcceptedStatus(status) && Truthy(txRef) && Truthy(transactionId) && txRef.value in txs
    && verify(transactionId.value).Verified? && verify(transactionId.value).status == "success"
  }

  /** The transaction table after one callback, when the database answers. */
  function AfterCallback(txs: map<string, Transaction>, status: Option<string>, txRef: Option<string>,
                         transactionId: Option<string>, verify: string -> VerifyReply)
    : (r: map<string, Transaction>)
    ensures CallbackSettles(txs, status, txRef, transactionId, verify) ==>
      r == txs[txRef.value := Settled(txs[txRef.value], transactionId.value, verify(transactionId.value).data)]
    ensures !CallbackSettles(txs, status, txRef, transactionId, verify) ==> r == txs
    ensures r.Keys == txs.Keys
    ensures forall k :: k in txs && (txRef.None? || k != txRef.value) ==> r[k] == txs[k]
    ensures r != txs ==>
      && AcceptedStatus(status) && Truthy(txRef) && Truthy(transactionId)
      && verify(transactionId.value).Verified? && verify(transactionId.value).status == "success"
  {
    if AcceptedStatus(status) && Truthy(txRef) && Truthy(transactionId) && txRef.value in txs then
      match verify(transactionId.value)
      case Verified(s, data) =>
        if s == "success" then txs[txRef.value := Settled(txs[txRef.value], transactionId.value, data)] else txs
      case VerifyThrew => txs
    else txs
  }

  /** `GET /api/payments/verify`. `asked` is the id the gateway was asked to
      verify, if any. A `tx_ref` naming no row makes the update throw, and so
      does a database that fails (`dbFails`). */
  method Verify(db: Database, status: Option<string>, txRef: Option<string>, transactionId: Option<string>,
                verify: string -> VerifyReply, dbFails: bool)
    returns (resp: VerifyResponse, asked: Option<string>)
    requires db.Valid()
    modifies db
    ensures db.Valid()
    ensures db.users == old(db.users) && db.offerings == old(db.offerings) && db.tasks == old(db.tasks)
    ensures dbFails ==> db.transactions == old(db.transactions)
    ensures !dbFails ==> db.transactions == AfterCallback(old(db.transactions), status, txRef, transactionId, verify)
    ensures !AcceptedStatus(status) ==> resp == PaymentFailed && asked.None?
    ensures AcceptedStatus(status) && !(Truthy(txRef) && Truthy(transactionId)) ==> resp == InvalidCallback && asked.None?
    ensures AcceptedStatus(status) && Truthy(txRef) && Truthy(transactionId) ==>
      && asked == Some(transactionId.value)
      && resp == if verify(transactionId.value).Verified? && verify(transactionId.value).status == "success"
                    && txRef.value in old(db.transactions) && !dbFails
                 then PaymentSucceeded(txRef.value) else PaymentError
  {
    asked := None;
    if !AcceptedStatus(status) {
      return PaymentFailed, asked;
    }
    if !Truthy(txRef) || !Truthy(transactionId) {
      return InvalidCallback, asked;
    }
    asked := Some(transactionId.value);
    var reply := verify(transactionId.value);
    if reply.Verified? && reply.status == "success" {
      if txRef.value in db.transactions && !dbFails {
        var updated := Settled(db.transactions[txRef.value], transactionId.value, reply.data);
        db.transactions := db.transactions[txRef.value := updated];
        return PaymentSucceeded(updated.id), asked;
      }
    }
    resp := PaymentError;
  }

  /** Delivering the same callback twice, with the same gateway verdicts,
      leaves the same table as delivering it once. */
  lemma CallbackReplayIsIdempotent(txs: map<string, Transaction>, status: Option<string>, txRef: Option<string>,
                                   transactionId: Option<string>, verify: string -> VerifyReply)
    ensures var once := AfterCallback(txs, status, txRef, transactionId, verify);
      AfterCallback(once, status, txRef, transactionId, verify) == once
  {
  }

  /** The update ignores the row's current state: a second, different
      successful callback overwrites a completed transaction. */
  lemma CompletedRowIsOverwritten(txs: map<string, Transaction>, txRef: string, first: string, second: string,
                                  verify: string -> VerifyReply)
    requires txRef in txs && txRef != "" && first != "" && second != "" && first != second
    requires verify(first).Verified? && verify(first).status == "success"
    requires verify(second).Verified? && verify(second).status == "success"
    ensures var once := AfterCallback(txs, Some("successful"), Some(txRef), Some(first), verify);
      && once[txRef].status == Completed
      && AfterCallback(once, Some("successful"), Some(txRef), Some(second), verify)[txRef].providerTransactionId
         == Some(second)
  {
  }
}
