/**
 * Payment orders (routes/Transaction.router.js): an order for a unit is
 * refused while a completed transaction for that unit exists, the unit is
 * walked up to its builder, and the gateway's order id is stored with a
 * `created` transaction. The browser's verify call and the gateway's
 * webhook then complete it, each gated by an HMAC signature.
 *
 * Amounts are whole rupees, as the transactions store them: the order call
 * is asked for paise, and the webhook's paise amount is divided by 100
 * before it is stored, so a `Payment`'s amount here is that rupee value.
 * HMAC-SHA256 is the parameter
 * `hmac(secret, message)`, the gateway's order call is the parameter
 * `order` (None when it fails), and the clock is `now`.
 */
module Payments {
  import opened Wrappers
  import opened Schema
  import opened Store
  import opened Access
  import opened Hierarchy

  /** JavaScript's rendering of an optional string inside a template literal. */
  function Show(s: Option<string>): string {
    if s.Some? then s.value else "undefined"
  }

  // ---- POST /

  /** A completed transaction for the unit exists. */
  predicate SoldOut(transactions: map<Id, Transaction>, unit: Id) {
    exists k :: k in transactions && transactions[k].property == Some(unit) && transactions[k].status == "completed"
  }

  /**
   * The checks POST / makes before asking the gateway for an order, in
   * their order: the amount and unit id, the duplicate-sale guard, then the
   * walk up to the builder. The result is the builder the order is for.
   */
  function PlanOrder(c: Catalog, transactions: map<Id, Transaction>, amount: Option<int>, propertyId: Option<Id>): (r: Result<Id>)
    ensures r == Err(BadRequest) <==> amount.None? || amount.value <= 0 || propertyId.None?
    ensures r.Ok? <==>
      amount.Some? && amount.value > 0 && propertyId.Some?
      && !SoldOut(transactions, propertyId.value) && ResolveOwner(c, propertyId.value).Ok?
    ensures r.Ok? ==> ResolveOwner(c, propertyId.value) == Ok(r.value)
    ensures r == Err(Conflict) <==> r != Err(BadRequest) && SoldOut(transactions, propertyId.value)
    ensures r.Err? ==> r.status in {BadRequest, Conflict, NotFound}
  {
    if amount.None? || amount.value <= 0 || propertyId.None? then Err(BadRequest)
    else if SoldOut(transactions, propertyId.value) then Err(Conflict)
    else ResolveOwner(c, propertyId.value)
  }

  /** A unit with a completed sale is refused before its ownership is even looked at. */
  lemma SoldUnitRefusedWhateverItsOwner(c1: Catalog, c2: Catalog, transactions: map<Id, Transaction>, amount: int, unit: Id)
    requires amount > 0 && SoldOut(transactions, unit)
    ensures PlanOrder(c1, transactions, Some(amount), Some(unit)) == PlanOrder(c2, transactions, Some(amount), Some(unit)) == Err(Conflict)
  {
  }

  /** The transaction POST / stores for an accepted order. */
  function NewOrder(me: Caller, builder: Id, unit: Id, amount: int, orderId: string, now: int): (t: Transaction)
    ensures TransactionValid(t) && t.status == "created" && t.user == Some(me.id)
    ensures t.builder == Some(builder) && t.property == Some(unit) && t.orderId == Some(orderId) && t.paymentId.None?
    ensures t.amount == amount && t.paymentMethod == "other" && t.createdAt == now
  {
    Transaction(Some(me.id), Some(builder), Some(unit), amount, "other", "created", "", Some(orderId), None, now)
  }

  /**
   * POST /: `order` is the gateway's answer to the order request, None when
   * the call fails (a 500).
   */
  method CreateOrder(db: Db, me: Caller, amount: Option<int>, propertyId: Option<Id>, order: Option<string>, now: int)
    returns (r: Result<Id>)
    requires db.Valid()
    modifies db
    ensures db.Valid()
    ensures var plan := PlanOrder(old(db.data).Snapshot(), old(db.data.transactions), amount, propertyId);
      && (plan.Err? ==> r == plan && db.data == old(db.data))
      && (plan.Ok? && order.None? ==> r == Err(ServerError) && db.data == old(db.data))
      && (plan.Ok? && order.Some? ==>
            r.Ok? && r.value !in old(db.data.transactions)
            && db.data == old(db.data).(
                 transactions := old(db.data.transactions)[r.value := NewOrder(me, plan.value, propertyId.value, amount.value, order.value, now)],
                 nextId := r.value + 1))
  {
    if amount.None? || amount.value <= 0 || propertyId.None? {
      return Err(BadRequest);
    }
    var unit := propertyId.value;
    var existing := First(db.data.transactions, (k: Id, t: Transaction) => t.property == Some(unit) && t.status == "completed", db.data.nextId);
    if existing.Some? {
      return Err(Conflict);
    }
    var owner := ResolveOwner(db.data.Snapshot(), unit);
    if owner.Err? {
      return Err(owner.status);
    }
    if order.None? {
      return Err(ServerError);
    }
    var id := db.NewId();
    db.data := db.data.(transactions := db.data.transactions[id := NewOrder(me, owner.value, unit, amount.value, order.value, now)]);
    r := Ok(id);
  }

  // ---- POST /verify

  /** The transaction `findOneAndUpdate({ razorpayOrderId })` reaches. */
  function ByOrderId(transactions: map<Id, Transaction>, n: nat, orderId: Option<string>): (r: Option<Id>)
    requires Below(transactions, n)
    ensures r.Some? ==> r.value in transactions && Matches(orderId, transactions[r.value].orderId)
    ensures r.None? <==> forall k :: k in transactions ==> !Matches(orderId, transactions[k].orderId)
  {
    First(transactions, (k: Id, t: Transaction) => Matches(orderId, t.orderId), n)
  }

  /** `paymentId` as the update writes it: Mongoose drops an undefined field from an update. */
  function PaymentIdAfter(old_: Option<string>, given: Option<string>): (p: Option<string>)
    ensures given.Some? ==> p == given
    ensures given.None? ==> p == old_
  {
    if given.Some? then given else old_
  }

  /**
   * POST /verify: a signature other than the HMAC of "orderId|paymentId"
   * is refused with no change; otherwise the transaction holding the order
   * id becomes completed with the payment id, or the answer is 404.
   */
  method VerifyPayment(db: Db, secret: string, hmac: (string, string) -> string,
                       orderId: Option<string>, paymentId: Option<string>, signature: Option<string>)
    returns (r: Result<Id>)
    requires db.Valid()
    modifies db
    ensures db.Valid()
    ensures signature != Some(hmac(secret, Show(orderId) + "|" + Show(paymentId))) ==>
      r == Err(BadRequest) && db.data == old(db.data)
    ensures signature == Some(hmac(secret, Show(orderId) + "|" + Show(paymentId))) ==>
      match ByOrderId(old(db.data.transactions), old(db.data.nextId), orderId)
      case None => r == Err(NotFound) && db.data == old(db.data)
      case Some(k) =>
        var t := old(db.data.transactions)[k];
        r == Ok(k)
        && db.data == old(db.data).(transactions := old(db.data.transactions)[k := t.(status := "completed", paymentId := PaymentIdAfter(t.paymentId, paymentId))])
  {
    if signature != Some(hmac(secret, Show(orderId) + "|" + Show(paymentId))) {
      return Err(BadRequest);
    }
    var found := ByOrderId(db.data.transactions, db.data.nextId, orderId);
    if found.None? {
      return Err(NotFound);
    }
    var k := found.value;
    var t := db.data.transactions[k];
    db.data := db.data.(transactions := db.data.transactions[k := t.(status := "completed", paymentId := PaymentIdAfter(t.paymentId, paymentId))]);
    r := Ok(k);
  }

  // ---- POST /webhook

  /** The `payment.entity` of a webhook event, with its notes. */
  datatype Payment = Payment(
    id: Option<string>,
    orderId: Option<string>,
    amount: int,
    paymentMethod: string,
    userId: Option<Id>,
    builderId: Option<Id>,
    propertyId: Option<Id>)

  datatype Event = Event(name: string, payment: Payment)

  /** What a captured payment does to the transactions. */
  datatype Capture =
    | Inserted(t: Transaction)
    | Completed(k: Id, t: Transaction)
    | Unchanged

  /** The transaction the webhook records for a payment no transaction knows. */
  function FromPayment(p: Payment, now: int): Transaction {
    Transaction(p.userId, p.builderId, p.propertyId, p.amount, p.paymentMethod, "completed",
                "Recorded from Razorpay webhook", p.orderId, p.id, now)
  }

  /**
   * `payment.captured`: a new completed transaction when none has the order
   * id, the first one with it completed when it is not yet, and nothing when
   * it is. A document that fails its validators is a 500.
   */
  function RecordCapture(transactions: map<Id, Transaction>, n: nat, p: Payment, now: int): (r: Result<Capture>)
    requires Below(transactions, n)
    ensures r.Err? ==> r.status == ServerError
    ensures r.Err? <==> (if ByOrderId(transactions, n, p.orderId).None? then !TransactionValid(FromPayment(p, now))
      else transactions[ByOrderId(transactions, n, p.orderId).value].status != "completed" && p.paymentMethod !in PaymentMethods)
    ensures r.Ok? && r.value.Inserted? ==>
      (forall k :: k in transactions ==> !Matches(p.orderId, transactions[k].orderId))
      && r.value.t.status == "completed" && r.value.t.orderId == p.orderId && TransactionValid(r.value.t)
      && r.value.t.paymentId == p.id && r.value.t.amount == p.amount && r.value.t.paymentMethod == p.paymentMethod
      && r.value.t.user == p.userId && r.value.t.builder == p.builderId && r.value.t.property == p.propertyId
      && r.value.t.createdAt == now
    ensures r.Ok? && r.value.Completed? ==>
      r.value.k in transactions && Matches(p.orderId, transactions[r.value.k].orderId)
      && transactions[r.value.k].status != "completed"
      && r.value.t == transactions[r.value.k].(status := "completed", paymentId := p.id, paymentMethod := p.paymentMethod)
    ensures r == Ok(Unchanged) <==> (exists k :: ByOrderId(transactions, n, p.orderId) == Some(k) && transactions[k].status == "completed")
  {
    match ByOrderId(transactions, n, p.orderId)
    case None =>
      var t := FromPayment(p, now);
      if TransactionValid(t) then Ok(Inserted(t)) else Err(ServerError)
    case Some(k) =>
      var t := transactions[k];
      if t.status == "completed" then Ok(Unchanged)
      else if p.paymentMethod in PaymentMethods then
        Ok(Completed(k, t.(status := "completed", paymentId := p.id, paymentMethod := p.paymentMethod)))
      else Err(ServerError)
  }

  /** The transactions after a capture; an insert takes the fresh id `n`. */
  function ApplyCapture(transactions: map<Id, Transaction>, n: nat, c: Capture): (ts: map<Id, Transaction>)
    ensures c.Unchanged? ==> ts == transactions
    ensures c.Inserted? ==> ts == transactions[n := c.t]
    ensures c.Completed? ==> ts == transactions[c.k := c.t]
  {
    match c
    case Inserted(t) => transactions[n := t]
    case Completed(k, t) => transactions[k := t]
    case Unchanged => transactions
  }

  /** Rewriting the first transaction with an order id, keeping that id, keeps it first. */
  lemma ByOrderIdAfterUpdate(transactions: map<Id, Transaction>, n: nat, orderId: Option<string>, k: Id, t: Transaction)
    requires Below(transactions, n) && ByOrderId(transactions, n, orderId) == Some(k)
    requires t.orderId == transactions[k].orderId
    ensures ByOrderId(transactions[k := t], n + 1, orderId) == Some(k)
  {
    var ts := transactions[k := t];
    var j := ByOrderId(ts, n + 1, orderId);
    assert Matches(orderId, ts[k].orderId);
  }

  /** A transaction inserted at the fresh id when none had the order id is the first with it. */
  lemma ByOrderIdAfterInsert(transactions: map<Id, Transaction>, n: nat, orderId: Option<string>, t: Transaction)
    requires Below(transactions, n) && ByOrderId(transactions, n, orderId).None?
    requires Matches(orderId, t.orderId)
    ensures ByOrderId(transactions[n := t], n + 1, orderId) == Some(n)
  {
    var ts := transactions[n := t];
    var j := ByOrderId(ts, n + 1, orderId);
    assert Matches(orderId, ts[n].orderId);
  }

  /** Delivering the same captured payment a second time changes nothing. */
  lemma CaptureIdempotent(transactions: map<Id, Transaction>, n: nat, p: Payment, now: int, later: int)
    requires Below(transactions, n)
    requires RecordCapture(transactions, n, p, now).Ok?
    ensures var ts := ApplyCapture(transactions, n, RecordCapture(transactions, n, p, now).value);
      RecordCapture(ts, n + 1, p, later) == Ok(Unchanged)
  {
    var c := RecordCapture(transactions, n, p, now).value;
    match c
    case Unchanged =>
      var k := ByOrderId(transactions, n, p.orderId).value;
      ByOrderIdAfterUpdate(transactions, n, p.orderId, k, transactions[k]);
      assert transactions[k := transactions[k]] == transactions;
    case Completed(k, t) =>
      ByOrderIdAfterUpdate(transactions, n, p.orderId, k, t);
    case Inserted(t) =>
      ByOrderIdAfterInsert(transactions, n, p.orderId, t);
  }

  /**
   * POST /webhook: the signature is checked over `body`, the re-serialised
   * request body; only `payment.captured` events change anything.
   */
  method Webhook(db: Db, secret: string, hmac: (string, string) -> string,
                 body: string, signature: Option<string>, event: Event, now: int)
    returns (r: Result<()>)
    requires db.Valid()
    modifies db
    ensures db.Valid()
    ensures signature != Some(hmac(secret, body)) ==> r == Err(BadRequest) && db.data == old(db.data)
    ensures signature == Some(hmac(secret, body)) && event.name != "payment.captured" ==>
      r == Ok(()) && db.data == old(db.data)
    ensures signature == Some(hmac(secret, body)) && event.name == "payment.captured" ==>
      match RecordCapture(old(db.data.transactions), old(db.data.nextId), event.payment, now)
      case Err(s) => r == Err(s) && db.data == old(db.data)
      case Ok(c) =>
        r == Ok(())
        && db.data == old(db.data).(
             transactions := ApplyCapture(old(db.data.transactions), old(db.data.nextId), c),
             nextId := if c.Inserted? then old(db.data.nextId) + 1 else old(db.data.nextId))
  {
    if signature != Some(hmac(secret, body)) {
      return Err(BadRequest);
    }
    if event.name != "payment.captured" {
      return Ok(());
    }
    var p := event.payment;
    var existing := ByOrderId(db.data.transactions, db.data.nextId, p.orderId);
    if existing.None? {
      var t := FromPayment(p, now);
      if !TransactionValid(t) {
        return Err(ServerError);
      }
      var id := db.NewId();
      db.data := db.data.(transactions := db.data.transactions[id := t]);
    } else {
      var k := existing.value;
      var t := db.data.transactions[k];
      if t.status != "completed" {
        if p.paymentMethod !in PaymentMethods {
          return Err(ServerError);
        }
        db.data := db.data.(transactions := db.data.transactions[k := t.(status := "completed", paymentId := p.id, paymentMethod := p.paymentMethod)]);
      }
    }
    r := Ok(());
  }

  // ---- GET /my and GET /:builderId

  /** GET /my: the caller's transactions. */
  function MyTransactions(transactions: map<Id, Transaction>, n: nat, me: Caller): (r: seq<Id>)
    requires Below(transactions, n)
    ensures forall k :: k in r <==> k in transactions && transactions[k].user == Some(me.id)
  {
    Find(transactions, (k: Id, t: Transaction) => t.user == Some(me.id), n)
  }

  /** GET /:builderId: the transactions on units found by the four `$in` queries. */
  function BuilderTransactions(c: Catalog, transactions: map<Id, Transaction>, n: nat, me: Caller, b: Id): (r: Result<seq<Id>>)
    requires Below(transactions, n)
    ensures r.Err? <==> !HasRole(me, BuilderSide)
    ensures r.Err? ==> r.status == Forbidden
    ensures r.Ok? ==> forall k :: k in r.value <==>
      k in transactions && transactions[k].property.Some? && transactions[k].property.value in UnitsOfBuilder(c, b)
  {
    if !HasRole(me, BuilderSide) then Err(Forbidden)
    else Ok(Find(transactions, (k: Id, t: Transaction) => t.property.Some? && t.property.value in UnitsOfBuilder(c, b), n))
  }

  /**
   * The builder listing holds exactly the transactions whose unit walks up
   * to that builder, the same walk POST / used to price the order.
   */
  lemma BuilderTransactionsAreOwned(c: Catalog, transactions: map<Id, Transaction>, n: nat, me: Caller, b: Id, k: Id)
    requires Below(transactions, n) && HasRole(me, BuilderSide)
    ensures k in BuilderTransactions(c, transactions, n, me, b).value <==>
      k in transactions && transactions[k].property.Some? && ResolveOwner(c, transactions[k].property.value) == Ok(b)
  {
    if k in transactions && transactions[k].property.Some? {
      OwnerIffReachable(c, transactions[k].property.value, b);
    }
  }
}
