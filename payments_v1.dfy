/**
 * The earlier payment router (routes/Transaction1.router.js), which the
 * application does not mount: orders are bounded in amount and stored as
 * `pending`, the webhook inserts a completed transaction for every
 * captured payment without looking for an existing one, verification names
 * the transaction by id, and staff may set a status from a fixed list.
 * The same conventions as the mounted router hold for amounts, HMAC, the
 * gateway and the clock.
 */
module Payments1 {
  import opened Wrappers
  import opened Schema
  import opened Store
  import opened Access
  import opened Payments

  /** The gateway's largest order, in rupees. */
  const MaxAmount := 5000000

  /** The statuses the manual update accepts; `created` is not among them. */
  const ManualStatuses: seq<string> := ["pending", "completed", "failed", "refunded"]

  /** The fields of the order request body. */
  datatype OrderRequest = OrderRequest(
    builder: Option<Id>,
    property: Option<Id>,
    amount: Option<int>,
    paymentMethod: Option<string>,
    remarks: Option<string>)

  /** The amount check of POST /: present, positive and within the gateway's limit. */
  predicate AmountAccepted(amount: Option<int>) {
    amount.Some? && 0 < amount.value <= MaxAmount
  }

  /** The `pending` transaction POST / builds, with the schema defaults filled in. */
  function PendingOrder(me: Caller, q: OrderRequest, orderId: string, now: int): (t: Transaction)
    requires q.amount.Some?
    ensures t.status == "pending" && t.user == Some(me.id) && t.orderId == Some(orderId) && t.paymentId.None?
    ensures t.amount == q.amount.value && t.builder == q.builder && t.property == q.property
    ensures q.paymentMethod.None? ==> t.paymentMethod == "other"
    ensures q.paymentMethod.Some? ==> t.paymentMethod == q.paymentMethod.value
    ensures TransactionValid(t) <==> t.paymentMethod in PaymentMethods
  {
    Transaction(Some(me.id), q.builder, q.property, q.amount.value,
                if q.paymentMethod.Some? then q.paymentMethod.value else "other",
                "pending", if q.remarks.Some? then q.remarks.value else "", Some(orderId), None, now)
  }

  /**
   * POST /: a missing, non-positive or too large amount is a 400 before the
   * gateway is asked; a failed gateway call or a payment method outside the
   * schema's list is a 500.
   */
  method CreatePending(db: Db, me: Caller, q: OrderRequest, order: Option<string>, now: int) returns (r: Result<Id>)
    requires db.Valid()
    modifies db
    ensures db.Valid()
    ensures !AmountAccepted(q.amount) ==> r == Err(BadRequest) && db.data == old(db.data)
    ensures AmountAccepted(q.amount) && order.None? ==> r == Err(ServerError) && db.data == old(db.data)
    ensures AmountAccepted(q.amount) && order.Some? ==>
      if TransactionValid(PendingOrder(me, q, order.value, now)) then
        r.Ok? && r.value !in old(db.data.transactions)
        && db.data == old(db.data).(transactions := old(db.data.transactions)[r.value := PendingOrder(me, q, order.value, now)], nextId := r.value + 1)
      else r == Err(ServerError) && db.data == old(db.data)
  {
    if q.amount.None? || q.amount.value <= 0 {
      return Err(BadRequest);
    }
    if q.amount.value > MaxAmount {
      return Err(BadRequest);
    }
    if order.None? {
      return Err(ServerError);
    }
    var t := PendingOrder(me, q, order.value, now);
    if !TransactionValid(t) {
      return Err(ServerError);
    }
    var id := db.NewId();
    db.data := db.data.(transactions := db.data.transactions[id := t]);
    r := Ok(id);
  }

  /** The transaction this router's webhook records for a captured payment. */
  function Captured(p: Payment, now: int): (t: Transaction)
    ensures t.status == "completed" && t.orderId == p.orderId && t.paymentId == p.id && t.amount == p.amount
    ensures t.user == p.userId && t.builder == p.builderId && t.property == p.propertyId
    ensures t.paymentMethod == p.paymentMethod && t.createdAt == now
    ensures TransactionValid(t) <==> p.userId.Some? && p.paymentMethod in PaymentMethods
  {
    Transaction(p.userId, p.builderId, p.propertyId, p.amount, p.paymentMethod, "completed",
                "Auto created from Razorpay webhook", p.orderId, p.id, now)
  }

  /** POST /webhook: every captured payment with a valid signature inserts a transaction. */
  method CaptureAlways(db: Db, secret: string, hmac: (string, string) -> string,
                       body: string, signature: Option<string>, event: Event, now: int)
    returns (r: Result<()>)
    requires db.Valid()
    modifies db
    ensures db.Valid()
    ensures signature != Some(hmac(secret, body)) ==> r == Err(BadRequest) && db.data == old(db.data)
    ensures signature == Some(hmac(secret, body)) && event.name != "payment.captured" ==>
      r == Ok(()) && db.data == old(db.data)
    ensures signature == Some(hmac(secret, body)) && event.name == "payment.captured" ==>
      if TransactionValid(Captured(event.payment, now)) then
        r == Ok(()) && old(db.data.nextId) !in old(db.data.transactions)
        && db.data == old(db.data).(
             transactions := old(db.data.transactions)[old(db.data.nextId) := Captured(event.payment, now)],
             nextId := old(db.data.nextId) + 1)
      else r == Err(ServerError) && db.data == old(db.data)
  {
    if signature != Some(hmac(secret, body)) {
      return Err(BadRequest);
    }
    if event.name != "payment.captured" {
      return Ok(());
    }
    var t := Captured(event.payment, now);
    if !TransactionValid(t) {
      return Err(ServerError);
    }
    var id := db.NewId();
    db.data := db.data.(transactions := db.data.transactions[id := t]);
    r := Ok(());
  }

  /** The transactions carrying an order id. */
  function WithOrderId(transactions: map<Id, Transaction>, orderId: string): (ks: set<Id>)
    ensures forall k :: k in ks <==> k in transactions && transactions[k].orderId == Some(orderId)
  {
    set k | k in transactions && transactions[k].orderId == Some(orderId)
  }

  /**
   * Unlike the mounted router's webhook, this one is not idempotent: a
   * second delivery of the same captured payment adds a second transaction
   * with the same order id.
   */
  lemma RedeliveryDuplicates(transactions: map<Id, Transaction>, n: nat, p: Payment, now: int, later: int)
    requires Below(transactions, n) && p.orderId.Some?
    ensures var once := transactions[n := Captured(p, now)];
      var twice := once[n + 1 := Captured(p, later)];
      WithOrderId(twice, p.orderId.value) == WithOrderId(transactions, p.orderId.value) + {n, n + 1}
      && |WithOrderId(twice, p.orderId.value)| >= 2
  {
    var once := transactions[n := Captured(p, now)];
    var twice := once[n + 1 := Captured(p, later)];
    assert n !in WithOrderId(transactions, p.orderId.value) && n + 1 !in WithOrderId(transactions, p.orderId.value);
    assert WithOrderId(twice, p.orderId.value) == WithOrderId(transactions, p.orderId.value) + {n, n + 1};
    assert {n, n + 1} <= WithOrderId(twice, p.orderId.value);
    assert |{n, n + 1}| == 2;
  }

  /**
   * The transaction `findByIdAndUpdate(transactionId)` reaches: the filter is
   * `{ _id: transactionId }`, and Mongoose drops an undefined `_id`, so a
   * missing id reaches the first stored transaction.
   */
  function ById(transactions: map<Id, Transaction>, n: nat, transactionId: Option<Id>): (r: Option<Id>)
    requires Below(transactions, n)
    ensures transactionId.Some? ==> r == (if transactionId.value in transactions then transactionId else None)
    ensures transactionId.None? ==> (r.None? <==> transactions.Keys == {})
    ensures r.Some? ==> r.value in transactions
    ensures r.Some? && transactionId.None? ==> forall k :: k in transactions ==> r.value <= k
  {
    var r := First(transactions, (k: Id, t: Transaction) => Matches(transactionId, Some(k)), n);
    assert transactionId.None? && r.None? ==> forall k :: k !in transactions;
    r
  }

  /**
   * POST /verify: with a valid signature over "orderId|paymentId", the
   * transaction named by `transactionId` becomes completed; an unknown id is
   * a 404, and a missing one completes the first stored transaction (a 404
   * only when there is none). The order and payment ids are not compared
   * with it.
   */
  method VerifyById(db: Db, secret: string, hmac: (string, string) -> string,
                    orderId: Option<string>, paymentId: Option<string>, signature: Option<string>, transactionId: Option<Id>)
    returns (r: Result<Id>)
    requires db.Valid()
    modifies db
    ensures db.Valid()
    ensures signature != Some(hmac(secret, Show(orderId) + "|" + Show(paymentId))) ==>
      r == Err(BadRequest) && db.data == old(db.data)
    ensures signature == Some(hmac(secret, Show(orderId) + "|" + Show(paymentId))) ==>
      match ById(old(db.data.transactions), old(db.data.nextId), transactionId)
      case None => r == Err(NotFound) && db.data == old(db.data)
      case Some(k) =>
        r == Ok(k)
        && db.data == old(db.data).(transactions := old(db.data.transactions)[k := old(db.data.transactions)[k].(status := "completed")])
  {
    if signature != Some(hmac(secret, Show(orderId) + "|" + Show(paymentId))) {
      return Err(BadRequest);
    }
    var found := ById(db.data.transactions, db.data.nextId, transactionId);
    if found.None? {
      return Err(NotFound);
    }
    var k := found.value;
    db.data := db.data.(transactions := db.data.transactions[k := db.data.transactions[k].(status := "completed")]);
    r := Ok(k);
  }

  /** GET /: every transaction, for staff. */
  function AllTransactions(transactions: map<Id, Transaction>, n: nat, me: Caller): (r: Result<seq<Id>>)
    requires Below(transactions, n)
    ensures r.Err? <==> !HasRole(me, BuilderSide)
    ensures r.Err? ==> r.status == Forbidden
    ensures r.Ok? ==> forall k :: k in r.value <==> k in transactions
  {
    if !HasRole(me, BuilderSide) then Err(Forbidden)
    else Ok(Find(transactions, (k: Id, t: Transaction) => true, n))
  }

  /**
   * PUT /:id/status: the status must be one of the manual statuses (400,
   * before any lookup), the transaction must exist (404).
   */
  method SetStatus(db: Db, me: Caller, id: Id, status: Option<string>) returns (r: Result<Id>)
    requires db.Valid()
    modifies db
    ensures db.Valid()
    ensures !HasRole(me, BuilderSide) ==> r == Err(Forbidden) && db.data == old(db.data)
    ensures HasRole(me, BuilderSide) && (status.None? || status.value !in ManualStatuses) ==>
      r == Err(BadRequest) && db.data == old(db.data)
    ensures HasRole(me, BuilderSide) && status.Some? && status.value in ManualStatuses ==>
      if id in old(db.data.transactions) then
        r == Ok(id) && db.data == old(db.data).(transactions := old(db.data.transactions)[id := old(db.data.transactions)[id].(status := status.value)])
      else r == Err(NotFound) && db.data == old(db.data)
    ensures r.Ok? ==> db.data.transactions[id].status != "created"
  {
    if !HasRole(me, BuilderSide) {
      return Err(Forbidden);
    }
    if status.None? || status.value !in ManualStatuses {
      return Err(BadRequest);
    }
    if id !in db.data.transactions {
      return Err(NotFound);
    }
    db.data := db.data.(transactions := db.data.transactions[id := db.data.transactions[id].(status := status.value)]);
    r := Ok(id);
  }
}
