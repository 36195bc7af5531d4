/**
 From payment to a trading account: the purchase tables and the transactions that
 change them.

 A transaction either commits or, if anything in it throws, leaves every table as it
 was.  Row locks make transactions on one order follow one another, so each is one
 step.  What the transactions read but never write is a `World` that may differ from
 step to step: the clock, the catalogue, the policies, the spec sets and the
 identifiers a database would generate.
 */
module Commerce {
  import opened Options
  import opened SpecSets

  type Id = string

  datatype Money = Money(amount: int, currency: string)

  datatype OrderStatus = Created | PendingPayment | Paid | PaymentFailed | Fulfilled | Cancelled | Refunded

  /** The purchase-order state machine. */
  predicate Allowed(from: OrderStatus, next: OrderStatus) {
    match from
    case Created => next == PendingPayment || next == Cancelled
    case PendingPayment => next == Paid || next == PaymentFailed || next == Cancelled
    case PaymentFailed => next == PendingPayment || next == Cancelled
    case Paid => next == Fulfilled || next == Refunded
    case Fulfilled => next == Refunded
    case Cancelled => false
    case Refunded => false
  }

  datatype Order = Order(
    userId: Id,
    idempotencyKey: string,
    productVersion: Id,
    policyVersion: Option<Id>,
    total: Money,
    dueAt: Option<int>,
    status: OrderStatus)

  datatype EventKind = PaymentConfirmedEvent | PaymentFailedEvent
  datatype EventKey = EventKey(provider: string, eventId: string)
  datatype Event = Event(kind: EventKind, signatureValid: bool, orderId: Option<Id>, processedAt: Option<int>)

  datatype Receipt = Receipt(orderId: Id, total: Money)

  datatype AttemptStatus = Initiated | AttemptConfirmed | AttemptFailed
  datatype Attempt = Attempt(status: AttemptStatus, reference: string, total: Money)

  datatype Account = Account(
    id: Id, publicId: string, userId: Id, orderId: Id, nominal: Money, policyVersion: Id, specSet: Id, activatedAt: int)

  /** From pending_activation to active. */
  datatype Activation = Activation(accountId: Id, occurredAt: int)

  /** An initial_balance ledger entry. */
  datatype Opening = Opening(accountId: Id, amount: Money)

  /** An evaluation.activated outbox event. */
  datatype Notice = Notice(accountId: Id, publicId: string, userId: Id, orderId: Id)

  /** Attempts are keyed by their attempt key, which is the order's id. */
  datatype Tables = Tables(
    orders: map<Id, Order>,
    events: map<EventKey, Event>,
    receipts: seq<Receipt>,
    attempts: map<Id, Attempt>,
    accounts: seq<Account>,
    transitions: seq<Activation>,
    ledger: seq<Opening>,
    outbox: seq<Notice>)

  const EMPTY := Tables(map[], map[], [], map[], [], [], [], [])

  datatype Policy = Policy(evaluation: bool, ready: bool)
  datatype Offer = Offer(productVersion: Id, price: Money)

  datatype World = World(
    now: int,
    offers: map<string, Offer>,
    published: Option<Id>,
    policies: map<Id, Policy>,
    nominals: map<Id, Money>,
    specSets: seq<SpecSet>,
    newId: Id,
    newPublicId: string)

  // ---- Activation -------------------------------------------------------

  datatype Activated = Activated(id: Id, publicId: string, alreadyExisted: bool)

  function AccountFor(accounts: seq<Account>, orderId: Id): Option<Account> {
    if accounts == [] then None
    else if accounts[0].orderId == orderId then Some(accounts[0])
    else AccountFor(accounts[1..], orderId)
  }

  /** The unique columns of the accounts table. */
  predicate Taken(accounts: seq<Account>, id: Id, publicId: string) {
    exists a :: a in accounts && (a.id == id || a.publicId == publicId)
  }

  /** The policy an activation is pinned to and the spec set it takes, unless the
      policy cannot be loaded, is not an evaluation policy or is not ready, or no
      spec set can be chosen. */
  function Prerequisites(order: Order, enforce: bool, w: World): Option<(Id, Id)> {
    var policyId := if order.policyVersion.Some? then order.policyVersion else w.published;
    if policyId.None? || policyId.value !in w.policies then None
    else if !w.policies[policyId.value].evaluation then None
    else if enforce && !w.policies[policyId.value].ready then None
    else match Fold(w.specSets)
      case None => None
      case Some(specSet) => Some((policyId.value, specSet.id))
  }

  /** Activation inside an open transaction; None when it throws. */
  function Activate(s: Tables, orderId: Id, userId: Id, nominal: Money, enforce: bool, w: World)
    : Option<(Tables, Activated)>
  {
    match AccountFor(s.accounts, orderId)
    case Some(a) => Some((s, Activated(a.id, a.publicId, true)))
    case None =>
      if orderId !in s.orders || Prerequisites(s.orders[orderId], enforce, w).None?
         || Taken(s.accounts, w.newId, w.newPublicId)
      then None
      else
        var (policyId, specSetId) := Prerequisites(s.orders[orderId], enforce, w).value;
        var a := Account(w.newId, w.newPublicId, userId, orderId, nominal, policyId, specSetId, w.now);
        Some((Opened(s, a), Activated(a.id, a.publicId, false)))
  }

  /** A new account with its transition, opening balance and notice; its order moves
      on if it was paid. */
  function Opened(s: Tables, a: Account): Tables
    requires a.orderId in s.orders
  {
    s.(accounts := s.accounts + [a],
       transitions := s.transitions + [Activation(a.id, a.activatedAt)],
       ledger := s.ledger + [Opening(a.id, a.nominal)],
       orders := if s.orders[a.orderId].status == Paid
                 then s.orders[a.orderId := s.orders[a.orderId].(status := Fulfilled)] else s.orders,
       outbox := s.outbox + [Notice(a.id, a.publicId, a.userId, a.orderId)])
  }

  // ---- The transactions --------------------------------------------------

  datatype Delivery = Delivery(
    key: EventKey, kind: EventKind, orderId: Id, total: Money, signatureValid: bool, enforce: bool)

  datatype Outcome =
    | Threw
    | Duplicate
    | InvalidSignature
    | UnknownOrder
    | AmountMismatch(expected: Money, received: Money)
    | IgnoredOrderState(status: OrderStatus)
    | FailedRecorded
    | Confirmed(account: Activated)

  function SetAttempt(attempts: map<Id, Attempt>, orderId: Id, status: AttemptStatus): map<Id, Attempt> {
    if orderId in attempts then attempts[orderId := attempts[orderId].(status := status)] else attempts
  }

  function IssueReceipt(receipts: seq<Receipt>, r: Receipt): seq<Receipt> {
    if exists q :: q in receipts && q.orderId == r.orderId then receipts else receipts + [r]
  }

  function MarkPaid(s: Tables, orderId: Id): Tables
    requires orderId in s.orders
  {
    var order := s.orders[orderId];
    s.(orders := s.orders[orderId := order.(status := Paid)],
       attempts := SetAttempt(s.attempts, orderId, AttemptConfirmed),
       receipts := IssueReceipt(s.receipts, Receipt(orderId, order.total)))
  }

  function MarkFailed(s: Tables, orderId: Id): Tables
    requires orderId in s.orders
  {
    s.(orders := s.orders[orderId := s.orders[orderId].(status := PaymentFailed)],
       attempts := SetAttempt(s.attempts, orderId, AttemptFailed))
  }

  function Record(s: Tables, d: Delivery, processedAt: Option<int>): Tables {
    var orderId := if d.orderId in s.orders then Some(d.orderId) else None;
    s.(events := s.events[d.key := Event(d.kind, d.signatureValid, orderId, processedAt)])
  }

  function Webhook(s: Tables, d: Delivery, w: World): (Tables, Outcome) {
    var recorded := Record(s, d, Some(w.now));
    if d.key in s.events then (s, Duplicate)
    else if !d.signatureValid then (recorded, InvalidSignature)
    else if d.orderId !in s.orders then (recorded, UnknownOrder)
    else
      var order := s.orders[d.orderId];
      if order.total != d.total then (recorded, AmountMismatch(order.total, d.total))
      else if d.kind == PaymentFailedEvent then
        (if order.status == PendingPayment then MarkFailed(recorded, d.orderId) else recorded, FailedRecorded)
      else if order.status != PendingPayment && order.status != Paid && order.status != Fulfilled then
        (recorded, IgnoredOrderState(order.status))
      else match Confirm(recorded, d, w)
        case None => (s, Threw)
        case Some((done, account)) => (done, Confirmed(account))
  }

  /** A confirmed payment: a pending order is marked paid with its receipt, and its
      account is activated; None when anything throws. */
  function Confirm(s: Tables, d: Delivery, w: World): Option<(Tables, Activated)>
    requires d.orderId in s.orders
  {
    var order := s.orders[d.orderId];
    var paid := if order.status == PendingPayment then MarkPaid(s, d.orderId) else s;
    if order.productVersion !in w.nominals then None
    else Activate(paid, d.orderId, order.userId, w.nominals[order.productVersion], d.enforce, w)
  }

  datatype Prepared =
    | Ready
    | NotFound
    | Expired
    | AlreadyProcessed(status: OrderStatus)
    | Unavailable(status: OrderStatus)

  function Prepare(s: Tables, orderId: Id, userId: Id, now: int): (Tables, Prepared) {
    if orderId !in s.orders || s.orders[orderId].userId != userId then (s, NotFound)
    else
      var order := s.orders[orderId];
      if order.dueAt.Some? && now > order.dueAt.value then (s, Expired)
      else if order.status == Paid || order.status == Fulfilled then (s, AlreadyProcessed(order.status))
      else if order.status == PaymentFailed then
        (s.(orders := s.orders[orderId := order.(status := PendingPayment)]), Ready)
      else if order.status != PendingPayment then (s, Unavailable(order.status))
      else (s, Ready)
  }

  datatype Creation = CreateThrew | ProductNotAvailable | ConsentRequired | CreatedOrder(id: Id) | ExistingOrder(id: Id)

  ghost predicate Holds(orders: map<Id, Order>, id: Id, userId: Id, idempotencyKey: string) {
    id in orders && orders[id].userId == userId && orders[id].idempotencyKey == idempotencyKey
  }

  function NewOrder(userId: Id, idempotencyKey: string, offer: Offer, policy: Id): Order {
    Order(userId, idempotencyKey, offer.productVersion, Some(policy), offer.price, None, PendingPayment)
  }

  /** Whether the tables after creating an order, and the answer, are right. */
  ghost predicate Creates(s: Tables, productCode: string, userId: Id, idempotencyKey: string, consented: bool, w: World,
                          t: Tables, r: Creation) {
    if productCode !in w.offers || w.published.None? then t == s && r == ProductNotAvailable
    else if !consented then t == s && r == ConsentRequired
    else if exists id :: Holds(s.orders, id, userId, idempotencyKey) then
      t == s && r.ExistingOrder? && Holds(s.orders, r.id, userId, idempotencyKey)
    else if w.newId in s.orders then t == s && r == CreateThrew
    else
      && r == CreatedOrder(w.newId)
      && var order := NewOrder(userId, idempotencyKey, w.offers[productCode], w.published.value);
      t == s.(orders := s.orders[w.newId := order])
  }

  function RecordAttempt(s: Tables, orderId: Id, reference: string, total: Money): (Tables, bool) {
    if orderId !in s.orders then (s, false)
    else (s.(attempts := s.attempts[orderId := Attempt(Initiated, reference, total)]), true)
  }

  function ActivateAlone(s: Tables, orderId: Id, userId: Id, nominal: Money, enforce: bool, w: World)
    : (Tables, Option<Activated>)
  {
    if orderId !in s.orders || s.orders[orderId].userId != userId then (s, None)
    else if s.orders[orderId].status != Paid && s.orders[orderId].status != Fulfilled then (s, None)
    else match Activate(s, orderId, userId, nominal, enforce, w)
      case None => (s, None)
      case Some((t, a)) => (t, Some(a))
  }

  // ---- The database ------------------------------------------------------

  class Database {
    var orders: map<Id, Order>
    var events: map<EventKey, Event>
    var receipts: seq<Receipt>
    var attempts: map<Id, Attempt>
    var accounts: seq<Account>
    var transitions: seq<Activation>
    var ledger: seq<Opening>
    var outbox: seq<Notice>

    function Snapshot(): Tables
      reads this
    {
      Tables(orders, events, receipts, attempts, accounts, transitions, ledger, outbox)
    }

    constructor ()
      ensures Snapshot() == EMPTY
    {
      orders, events, attempts := map[], map[], map[];
      receipts, accounts, transitions, ledger, outbox := [], [], [], [], [];
    }

    method Rollback(saved: Tables)
      modifies this
      ensures Snapshot() == saved
    {
      orders, events, attempts := saved.orders, saved.events, saved.attempts;
      receipts, accounts, transitions := saved.receipts, saved.accounts, saved.transitions;
      ledger, outbox := saved.ledger, saved.outbox;
    }

    method ActivateEvaluationAccountInTransaction(orderId: Id, userId: Id, nominal: Money, enforce: bool, w: World)
      returns (r: Option<Activated>)
      modifies this
      ensures r.Some? <==> Activate(old(Snapshot()), orderId, userId, nominal, enforce, w).Some?
      ensures r.Some? ==> (Snapshot(), r.value) == Activate(old(Snapshot()), orderId, userId, nominal, enforce, w).value
    {
      var existing := AccountFor(accounts, orderId);
      if existing.Some? {
        return Some(Activated(existing.value.id, existing.value.publicId, true));
      }
      if orderId !in orders { return None; }
      var order := orders[orderId];
      var policyId := if order.policyVersion.Some? then order.policyVersion else w.published;
      if policyId.None? || policyId.value !in w.policies { return None; }
      if !w.policies[policyId.value].evaluation { return None; }
      if enforce && !w.policies[policyId.value].ready { return None; }
      var specSet := LoadLatest(w.specSets);
      if specSet.None? { return None; }
      if Taken(accounts, w.newId, w.newPublicId) { return None; }
      accounts := accounts + [
        Account(w.newId, w.newPublicId, userId, orderId, nominal, policyId.value, specSet.value.id, w.now)];
      transitions := transitions + [Activation(w.newId, w.now)];
      ledger := ledger + [Opening(w.newId, nominal)];
      if orders[orderId].status == Paid {
        orders := orders[orderId := orders[orderId].(status := Fulfilled)];
      }
      outbox := outbox + [Notice(w.newId, w.newPublicId, userId, orderId)];
      return Some(Activated(w.newId, w.newPublicId, false));
    }

    /** The insert that makes deliveries idempotent: on conflict it does nothing. */
    method RecordPaymentEvent(d: Delivery) returns (isNewEvent: bool)
      modifies this`events
      ensures isNewEvent <==> d.key !in old(events)
      ensures Snapshot() == if isNewEvent then Record(old(Snapshot()), d, None) else old(Snapshot())
    {
      if d.key in events { return false; }
      var orderId := if d.orderId in orders then Some(d.orderId) else None;
      events := events[d.key := Event(d.kind, d.signatureValid, orderId, None)];
      return true;
    }

    method MarkProcessed(d: Delivery, ghost s: Tables, now: int)
      requires events == Record(s, d, None).events
      modifies this`events
      ensures events == Record(s, d, Some(now)).events
    {
      events := events[d.key := events[d.key].(processedAt := Some(now))];
    }

    /** The body of the webhook transaction, which may leave half-done work when it throws. */
    method WebhookBody(d: Delivery, w: World) returns (r: Outcome)
      modifies this
      ensures r == Webhook(old(Snapshot()), d, w).1
      ensures r != Threw ==> Snapshot() == Webhook(old(Snapshot()), d, w).0
    {
      hide Confirm, SetAttempt;
      ghost var s := Snapshot();
      var order := if d.orderId in orders then Some(orders[d.orderId]) else None;
      var isNewEvent := RecordPaymentEvent(d);
      if !isNewEvent { return Duplicate; }
      if !d.signatureValid {
        MarkProcessed(d, s, w.now);
        return InvalidSignature;
      }
      if order.None? {
        MarkProcessed(d, s, w.now);
        return UnknownOrder;
      }
      if order.value.total != d.total {
        MarkProcessed(d, s, w.now);
        return AmountMismatch(order.value.total, d.total);
      }
      var status := order.value.status;
      if d.kind == PaymentFailedEvent {
        if status == PendingPayment {
          assert Allowed(PendingPayment, PaymentFailed);
          orders := orders[d.orderId := order.value.(status := PaymentFailed)];
          attempts := SetAttempt(attempts, d.orderId, AttemptFailed);
        }
        MarkProcessed(d, s, w.now);
        return FailedRecorded;
      }
      if status != PendingPayment && status != Paid && status != Fulfilled {
        MarkProcessed(d, s, w.now);
        return IgnoredOrderState(status);
      }
      ConfirmIgnoresEvents(Record(s, d, None), Record(s, d, Some(w.now)).events, d, w);
      var account := ConfirmPayment(d, w);
      if account.None? { return Threw; }
      MarkProcessed(d, s, w.now);
      return Confirmed(account.value);
    }

    method ConfirmPayment(d: Delivery, w: World) returns (r: Option<Activated>)
      requires d.orderId in orders
      modifies this
      ensures r.Some? <==> Confirm(old(Snapshot()), d, w).Some?
      ensures r.Some? ==> (Snapshot(), r.value) == Confirm(old(Snapshot()), d, w).value
    {
      hide Activate, SetAttempt, IssueReceipt;
      var order := orders[d.orderId];
      if order.status == PendingPayment {
        assert Allowed(PendingPayment, Paid);
        orders := orders[d.orderId := order.(status := Paid)];
        attempts := SetAttempt(attempts, d.orderId, AttemptConfirmed);
        receipts := IssueReceipt(receipts, Receipt(d.orderId, order.total));
      }
      if order.productVersion !in w.nominals { return None; }
      r := ActivateEvaluationAccountInTransaction(
        d.orderId, order.userId, w.nominals[order.productVersion], d.enforce, w);
    }

    method ProcessPaymentWebhookEvent(d: Delivery, w: World) returns (r: Outcome)
      modifies this
      ensures (Snapshot(), r) == Webhook(old(Snapshot()), d, w)
    {
      hide Confirm;
      var saved := Snapshot();
      r := WebhookBody(d, w);
      if r == Threw { Rollback(saved); }
    }

    method PreparePurchaseOrderForPayment(orderId: Id, userId: Id, now: int) returns (r: Prepared)
      modifies this
      ensures (Snapshot(), r) == Prepare(old(Snapshot()), orderId, userId, now)
    {
      if orderId !in orders || orders[orderId].userId != userId { return NotFound; }
      var order := orders[orderId];
      if order.dueAt.Some? && now > order.dueAt.value { return Expired; }
      if order.status == Paid || order.status == Fulfilled { return AlreadyProcessed(order.status); }
      if order.status == PaymentFailed {
        assert Allowed(PaymentFailed, PendingPayment);
        orders := orders[orderId := order.(status := PendingPayment)];
        order := order.(status := PendingPayment);
      }
      if order.status != PendingPayment { return Unavailable(order.status); }
      return Ready;
    }

    method CreatePurchaseOrder(productCode: string, userId: Id, idempotencyKey: string, consented: bool, w: World)
      returns (r: Creation)
      modifies this
      ensures Creates(old(Snapshot()), productCode, userId, idempotencyKey, consented, w, Snapshot(), r)
    {
      if productCode !in w.offers { return ProductNotAvailable; }
      if w.published.None? { return ProductNotAvailable; }
      if !consented { return ConsentRequired; }
      var same := set id | id in orders && orders[id].userId == userId && orders[id].idempotencyKey == idempotencyKey;
      if same != {} {
        var id :| id in same;
        assert Holds(orders, id, userId, idempotencyKey);
        return ExistingOrder(id);
      }
      assert forall id :: Holds(orders, id, userId, idempotencyKey) ==> id in same;
      if w.newId in orders { return CreateThrew; }
      orders := orders[w.newId := NewOrder(userId, idempotencyKey, w.offers[productCode], w.published.value)];
      return CreatedOrder(w.newId);
    }

    method RecordPaymentAttempt(orderId: Id, reference: string, total: Money) returns (ok: bool)
      modifies this
      ensures (Snapshot(), ok) == RecordAttempt(old(Snapshot()), orderId, reference, total)
    {
      if orderId !in orders { return false; }
      attempts := attempts[orderId := Attempt(Initiated, reference, total)];
      return true;
    }

    method ActivateEvaluationAccount(orderId: Id, userId: Id, nominal: Money, enforce: bool, w: World)
      returns (r: Option<Activated>)
      modifies this
      ensures (Snapshot(), r) == ActivateAlone(old(Snapshot()), orderId, userId, nominal, enforce, w)
    {
      var saved := Snapshot();
      if orderId !in orders || orders[orderId].userId != userId { return None; }
      if orders[orderId].status != Paid && orders[orderId].status != Fulfilled { return None; }
      r := ActivateEvaluationAccountInTransaction(orderId, userId, nominal, enforce, w);
      if r.None? { Rollback(saved); }
    }
  }

  /** Confirming neither reads nor writes payment events. */
  lemma ConfirmIgnoresEvents(s: Tables, events: map<EventKey, Event>, d: Delivery, w: World)
    requires d.orderId in s.orders
    ensures Confirm(s.(events := events), d, w) ==
      match Confirm(s, d, w)
      case None => None
      case Some((t, a)) => Some((t.(events := events), a))
    ensures Confirm(s, d, w).Some? ==> Confirm(s, d, w).value.0.events == s.events
  {
  }
}
