/** What holds over every run of purchases, deliveries, retries and activations. */
module CommerceRuns {
  import opened Options
  import opened Commerce

  datatype Step =
    | Purchase(productCode: string, userId: Id, idempotencyKey: string, consented: bool, w: World)
    | Preparation(orderId: Id, userId: Id, now: int)
    | AttemptMade(orderId: Id, reference: string, total: Money)
    | Delivered(d: Delivery, w: World)
    | Standalone(orderId: Id, userId: Id, nominal: Money, enforce: bool, w: World)

  predicate SameIntent(order: Order, p: Step)
    requires p.Purchase?
  {
    order.userId == p.userId && order.idempotencyKey == p.idempotencyKey
  }

  /** Creating an order, as a function of the tables. */
  function Purchased(s: Tables, p: Step): Tables
    requires p.Purchase?
  {
    if p.productCode !in p.w.offers || p.w.published.None? || !p.consented || p.w.newId in s.orders
       || (exists id :: id in s.orders && SameIntent(s.orders[id], p))
    then s
    else s.(orders := s.orders[p.w.newId :=
                        NewOrder(p.userId, p.idempotencyKey, p.w.offers[p.productCode], p.w.published.value)])
  }

  lemma CreatesIsPurchased(s: Tables, p: Step, t: Tables, r: Creation)
    requires p.Purchase? && Creates(s, p.productCode, p.userId, p.idempotencyKey, p.consented, p.w, t, r)
    ensures t == Purchased(s, p)
  {
    assert (exists id :: Holds(s.orders, id, p.userId, p.idempotencyKey)) <==>
           (exists id :: id in s.orders && SameIntent(s.orders[id], p)) by {
      forall id | id in s.orders && SameIntent(s.orders[id], p)
        ensures Holds(s.orders, id, p.userId, p.idempotencyKey)
      {
      }
    }
  }

  function Do(s: Tables, step: Step): Tables {
    match step
    case Purchase(_, _, _, _, _) => Purchased(s, step)
    case Preparation(orderId, userId, now) => Prepare(s, orderId, userId, now).0
    case AttemptMade(orderId, reference, total) => RecordAttempt(s, orderId, reference, total).0
    case Delivered(d, w) => Webhook(s, d, w).0
    case Standalone(orderId, userId, nominal, enforce, w) => ActivateAlone(s, orderId, userId, nominal, enforce, w).0
  }

  function After(s: Tables, run: seq<Step>): Tables
    decreases |run|
  {
    if run == [] then s else After(Do(s, run[0]), run[1..])
  }

  // ---- The invariant -----------------------------------------------------

  /** Rows that activation writes together stay together. */
  ghost predicate Linked(s: Tables) {
    && |s.transitions| == |s.ledger| == |s.outbox| == |s.accounts|
    && forall i :: 0 <= i < |s.accounts| ==>
      && s.transitions[i] == Activation(s.accounts[i].id, s.accounts[i].activatedAt)
      && s.ledger[i] == Opening(s.accounts[i].id, s.accounts[i].nominal)
      && s.outbox[i] == Notice(s.accounts[i].id, s.accounts[i].publicId, s.accounts[i].userId, s.accounts[i].orderId)
  }

  ghost predicate DistinctAccounts(s: Tables) {
    forall i, j :: 0 <= i < j < |s.accounts| ==>
      && s.accounts[i].id != s.accounts[j].id && s.accounts[i].publicId != s.accounts[j].publicId
      && s.accounts[i].orderId != s.accounts[j].orderId
  }

  /** Every account belongs to a fulfilled order of the same user. */
  ghost predicate AccountsFulfilled(s: Tables) {
    forall a :: a in s.accounts ==>
      a.orderId in s.orders && s.orders[a.orderId].status == Fulfilled && s.orders[a.orderId].userId == a.userId
  }

  ghost predicate FulfilledHaveAccounts(s: Tables) {
    forall o :: o in s.orders && s.orders[o].status == Fulfilled ==> AccountFor(s.accounts, o).Some?
  }

  ghost predicate ReceiptsRight(s: Tables) {
    && (forall i, j :: 0 <= i < j < |s.receipts| ==> s.receipts[i].orderId != s.receipts[j].orderId)
    && (forall r :: r in s.receipts ==>
          r.orderId in s.orders && s.orders[r.orderId].status == Fulfilled && s.orders[r.orderId].total == r.total)
  }

  ghost predicate OneKeyEach(s: Tables) {
    forall a, b :: a in s.orders && b in s.orders && a != b ==>
      s.orders[a].userId != s.orders[b].userId || s.orders[a].idempotencyKey != s.orders[b].idempotencyKey
  }

  ghost predicate Inv(s: Tables) {
    && Linked(s)
    && DistinctAccounts(s)
    && AccountsFulfilled(s)
    && FulfilledHaveAccounts(s)
    && ReceiptsRight(s)
    && OneKeyEach(s)
  }

  /** No order waits between payment and activation, and each fulfilled one has its receipt. */
  ghost predicate Settled(s: Tables) {
    forall o :: o in s.orders ==>
      && s.orders[o].status != Paid
      && (s.orders[o].status == Fulfilled ==> exists r :: r in s.receipts && r.orderId == o)
  }

  // ---- Lookups -----------------------------------------------------------

  lemma {:induction false} AccountForFinds(accounts: seq<Account>, orderId: Id)
    ensures AccountFor(accounts, orderId).Some? ==>
      AccountFor(accounts, orderId).value in accounts && AccountFor(accounts, orderId).value.orderId == orderId
    ensures AccountFor(accounts, orderId).None? ==> forall a :: a in accounts ==> a.orderId != orderId
  {
    if accounts != [] && accounts[0].orderId != orderId {
      AccountForFinds(accounts[1..], orderId);
    }
  }

  lemma {:induction false} AccountForAppend(accounts: seq<Account>, a: Account, orderId: Id)
    ensures AccountFor(accounts + [a], orderId) ==
      if AccountFor(accounts, orderId).Some? then AccountFor(accounts, orderId)
      else if a.orderId == orderId then Some(a) else None
  {
    if accounts == [] {
      assert accounts + [a] == [a] && [a][1..] == [];
    } else {
      assert (accounts + [a])[1..] == accounts[1..] + [a];
      AccountForAppend(accounts[1..], a, orderId);
    }
  }

  // ---- Each step keeps the invariant -------------------------------------

  /** Moving an order between states short of Fulfilled disturbs nothing. */
  lemma MoveOrder(s: Tables, o: Id, status: OrderStatus)
    requires Inv(s) && o in s.orders && s.orders[o].status != Fulfilled && status != Fulfilled
    ensures var t := s.(orders := s.orders[o := s.orders[o].(status := status)]);
      Inv(t) && (status != Paid && Settled(s) ==> Settled(t))
  {
    hide AccountFor;
  }

  lemma FulfilOrder(s: Tables, o: Id, a: Account)
    requires Inv(s) && o in s.orders && s.orders[o].status == Paid
    requires AccountFor(s.accounts, o).None?
    requires a.orderId == o && a.userId == s.orders[o].userId && !Taken(s.accounts, a.id, a.publicId)
    ensures Inv(Opened(s, a))
  {
    hide AccountFor, Taken, DistinctAccounts;
    var t := Opened(s, a);
    AccountForFinds(s.accounts, o);
    OneMoreAccount(s, a);
    assert forall b :: b in t.accounts ==> b in s.accounts || b == a;
    forall p | p in t.orders && t.orders[p].status == Fulfilled
      ensures AccountFor(t.accounts, p).Some?
    {
      AccountForAppend(s.accounts, a, p);
    }
  }

  lemma OneMoreAccount(s: Tables, a: Account)
    requires DistinctAccounts(s) && !Taken(s.accounts, a.id, a.publicId) && a.orderId in s.orders
    requires forall b :: b in s.accounts ==> b.orderId != a.orderId
    ensures DistinctAccounts(Opened(s, a))
  {
  }

  /** A pending order confirmed: paid, receipted and fulfilled in one transaction. */
  lemma ConfirmPending(s: Tables, d: Delivery, w: World)
    requires Inv(s) && d.orderId in s.orders && s.orders[d.orderId].status == PendingPayment
    requires Confirm(s, d, w).Some?
    ensures var t := Confirm(s, d, w).value.0;
      && Inv(t) && (Settled(s) ==> Settled(t))
      && t.orders == s.orders[d.orderId := s.orders[d.orderId].(status := Fulfilled)]
      && t.receipts == s.receipts + [Receipt(d.orderId, s.orders[d.orderId].total)]
      && |t.accounts| == |s.accounts| + 1 && t.accounts[..|s.accounts|] == s.accounts
      && t.accounts[|s.accounts|].orderId == d.orderId
      && t.accounts[|s.accounts|].nominal == w.nominals[s.orders[d.orderId].productVersion]
  {
    hide Confirm, SetAttempt, AccountFor, Taken;
    var o, order := d.orderId, s.orders[d.orderId];
    var a := ConfirmOpens(s, d, w);
    NoReceiptYet(s, o);
    MoveOrder(s, o, Paid);
    FulfilOrder(s.(orders := s.orders[o := order.(status := Paid)]), o, a);
    var t := Opened(MarkPaid(s, o), a);
    assert t.orders == s.orders[o := order.(status := Fulfilled)];
    AddReceipt(s, t, o);
  }

  /** The account that a confirmed payment opens. */
  lemma ConfirmOpens(s: Tables, d: Delivery, w: World) returns (a: Account)
    requires Inv(s) && d.orderId in s.orders && s.orders[d.orderId].status == PendingPayment
    requires Confirm(s, d, w).Some?
    ensures var order := s.orders[d.orderId];
      && order.productVersion in w.nominals
      && a.orderId == d.orderId && a.userId == order.userId && a.nominal == w.nominals[order.productVersion]
      && a.id == w.newId && a.publicId == w.newPublicId && a.activatedAt == w.now
      && Prerequisites(order.(status := Paid), d.enforce, w) == Some((a.policyVersion, a.specSet))
      && AccountFor(s.accounts, d.orderId).None? && !Taken(s.accounts, a.id, a.publicId)
      && Confirm(s, d, w).value.0 == Opened(MarkPaid(s, d.orderId), a)
  {
    hide AccountFor, Taken, Prerequisites, SetAttempt, IssueReceipt;
    var o, order := d.orderId, s.orders[d.orderId];
    AccountForFinds(s.accounts, o);
    var paid := MarkPaid(s, o);
    var (policyId, specSetId) := Prerequisites(paid.orders[o], d.enforce, w).value;
    var nominal := w.nominals[order.productVersion];
    a := Account(w.newId, w.newPublicId, order.userId, o, nominal, policyId, specSetId, w.now);
  }

  lemma NoReceiptYet(s: Tables, o: Id)
    requires ReceiptsRight(s) && o in s.orders && s.orders[o].status != Fulfilled
    ensures IssueReceipt(s.receipts, Receipt(o, s.orders[o].total)) == s.receipts + [Receipt(o, s.orders[o].total)]
  {
  }

  lemma AddReceipt(s: Tables, t: Tables, o: Id)
    requires Inv(s) && o in s.orders && s.orders[o].status == PendingPayment
    requires t.orders == s.orders[o := s.orders[o].(status := Fulfilled)]
    requires t.receipts == s.receipts + [Receipt(o, s.orders[o].total)]
    ensures ReceiptsRight(t)
    ensures Settled(s) ==> Settled(t)
  {
    hide Linked, AccountFor;
    assert forall r :: r in t.receipts <==> r in s.receipts || r == Receipt(o, s.orders[o].total);
    assert forall i :: 0 <= i < |s.receipts| ==> s.receipts[i] in s.receipts;
    if Settled(s) {
      forall p | p in t.orders && t.orders[p].status == Fulfilled
        ensures exists r :: r in t.receipts && r.orderId == p
      {
        if p == o {
          assert Receipt(o, s.orders[o].total) in t.receipts;
        } else {
          var r :| r in s.receipts && r.orderId == p;
          assert r in t.receipts;
        }
      }
    }
  }

  lemma ConfirmPaid(s: Tables, d: Delivery, w: World)
    requires Inv(s) && d.orderId in s.orders && s.orders[d.orderId].status == Paid
    requires Confirm(s, d, w).Some?
    ensures Inv(Confirm(s, d, w).value.0)
    ensures var t := Confirm(s, d, w).value.0;
      t.orders == s.orders[d.orderId := s.orders[d.orderId].(status := Fulfilled)] && t.receipts == s.receipts
  {
    hide AccountFor, Taken, Prerequisites, SetAttempt;
    AccountForFinds(s.accounts, d.orderId);
    var order := s.orders[d.orderId];
    PaidActivates(s, d.orderId, order.userId, w.nominals[order.productVersion], d.enforce, w);
  }

  /** An order found paid but not activated is completed by activation. */
  lemma PaidActivates(s: Tables, o: Id, userId: Id, nominal: Money, enforce: bool, w: World)
    requires Inv(s) && o in s.orders && s.orders[o].status == Paid && s.orders[o].userId == userId
    requires Activate(s, o, userId, nominal, enforce, w).Some?
    ensures var (t, a) := Activate(s, o, userId, nominal, enforce, w).value;
      && Inv(t) && !a.alreadyExisted
      && t.orders == s.orders[o := s.orders[o].(status := Fulfilled)]
      && t.receipts == s.receipts && t.events == s.events
      && |t.accounts| == |s.accounts| + 1 && t.accounts[..|s.accounts|] == s.accounts
  {
    hide AccountFor, Taken, Prerequisites;
    AccountForFinds(s.accounts, o);
    var (policyId, specSetId) := Prerequisites(s.orders[o], enforce, w).value;
    FulfilOrder(s, o, Account(w.newId, w.newPublicId, userId, o, nominal, policyId, specSetId, w.now));
  }

  lemma PurchaseKeeps(s: Tables, p: Step)
    requires Inv(s) && p.Purchase?
    ensures Inv(Purchased(s, p)) && (Settled(s) ==> Settled(Purchased(s, p)))
  {
    hide AccountFor, Linked, DistinctAccounts;
    var t := Purchased(s, p);
    if t != s {
      assert FulfilledHaveAccounts(t) && AccountsFulfilled(t) && ReceiptsRight(t);
      assert Linked(t) && DistinctAccounts(t) by { LinkedIgnoresOrders(s, t.orders); }
    }
  }

  lemma LinkedIgnoresOrders(s: Tables, orders: map<Id, Order>)
    requires Linked(s) && DistinctAccounts(s)
    ensures Linked(s.(orders := orders)) && DistinctAccounts(s.(orders := orders))
  {
  }

  lemma WebhookKeeps(s: Tables, d: Delivery, w: World)
    requires Inv(s)
    ensures Inv(Webhook(s, d, w).0) && (Settled(s) ==> Settled(Webhook(s, d, w).0))
  {
    hide AccountFor, Confirm, Linked, DistinctAccounts, OneKeyEach;
    var recorded := Record(s, d, Some(w.now));
    InvIgnores(s, recorded.events, s.attempts);
    var (t, r) := Webhook(s, d, w);
    match r
    case FailedRecorded =>
      if s.orders[d.orderId].status == PendingPayment {
        var failed := MarkFailed(recorded, d.orderId);
        InvIgnores(s, recorded.events, failed.attempts);
        MoveOrder(s.(events := recorded.events, attempts := failed.attempts), d.orderId, PaymentFailed);
      }
    case Confirmed(_) => ConfirmKeeps(recorded, d, w);
    case _ =>
  }

  lemma InvIgnores(s: Tables, events: map<EventKey, Event>, attempts: map<Id, Attempt>)
    requires Inv(s)
    ensures var t := s.(events := events, attempts := attempts); Inv(t) && (Settled(s) ==> Settled(t))
    ensures var t := s.(events := events); Inv(t) && (Settled(s) ==> Settled(t))
  {
    hide AccountFor;
  }

  lemma ConfirmKeeps(s: Tables, d: Delivery, w: World)
    requires Inv(s) && d.orderId in s.orders && Confirm(s, d, w).Some?
    requires s.orders[d.orderId].status in {PendingPayment, Paid, Fulfilled}
    ensures Inv(Confirm(s, d, w).value.0) && (Settled(s) ==> Settled(Confirm(s, d, w).value.0))
  {
    match s.orders[d.orderId].status
    case PendingPayment => ConfirmPending(s, d, w);
    case Paid => ConfirmPaid(s, d, w);
    case _ => ConfirmFulfilled(s, d, w);
  }

  lemma ConfirmFulfilled(s: Tables, d: Delivery, w: World)
    requires Inv(s) && d.orderId in s.orders && s.orders[d.orderId].status == Fulfilled
    requires Confirm(s, d, w).Some?
    ensures Confirm(s, d, w).value.0 == s
  {
  }

  lemma StandaloneKeeps(s: Tables, o: Id, userId: Id, nominal: Money, enforce: bool, w: World)
    requires Inv(s)
    ensures Inv(ActivateAlone(s, o, userId, nominal, enforce, w).0)
    ensures Settled(s) ==> ActivateAlone(s, o, userId, nominal, enforce, w).0 == s
  {
    hide AccountFor, Activate;
    if o in s.orders && s.orders[o].userId == userId && Activate(s, o, userId, nominal, enforce, w).Some? {
      match s.orders[o].status {
        case Paid => PaidActivates(s, o, userId, nominal, enforce, w);
        case Fulfilled => AlreadyActivated(s, o, userId, nominal, enforce, w);
        case _ =>
      }
    }
  }

  lemma AlreadyActivated(s: Tables, o: Id, userId: Id, nominal: Money, enforce: bool, w: World)
    requires AccountFor(s.accounts, o).Some?
    ensures var a := AccountFor(s.accounts, o).value;
      Activate(s, o, userId, nominal, enforce, w) == Some((s, Activated(a.id, a.publicId, true)))
  {
  }

  /** Every step, committed or not, keeps the invariant, and no step leaves an order
      waiting between payment and activation. */
  lemma StepKeeps(s: Tables, step: Step)
    requires Inv(s)
    ensures Inv(Do(s, step)) && (Settled(s) ==> Settled(Do(s, step)))
  {
    hide Inv, Settled, Webhook, ActivateAlone, Purchased;
    match step
    case Purchase(_, _, _, _, _) => PurchaseKeeps(s, step);
    case Preparation(orderId, userId, now) => PreparationKeeps(s, orderId, userId, now);
    case AttemptMade(orderId, reference, total) =>
      InvIgnores(s, s.events, RecordAttempt(s, orderId, reference, total).0.attempts);
    case Delivered(d, w) => WebhookKeeps(s, d, w);
    case Standalone(orderId, userId, nominal, enforce, w) => StandaloneKeeps(s, orderId, userId, nominal, enforce, w);
  }

  lemma PreparationKeeps(s: Tables, orderId: Id, userId: Id, now: int)
    requires Inv(s)
    ensures Inv(Prepare(s, orderId, userId, now).0) && (Settled(s) ==> Settled(Prepare(s, orderId, userId, now).0))
  {
    hide Inv, Settled;
    if orderId in s.orders && s.orders[orderId].status == PaymentFailed {
      MoveOrder(s, orderId, PendingPayment);
    }
  }

  lemma {:induction false} RunKeeps(s: Tables, run: seq<Step>)
    requires Inv(s)
    ensures Inv(After(s, run)) && (Settled(s) ==> Settled(After(s, run)))
    decreases |run|
  {
    hide Inv, Settled, Do;
    if run != [] {
      StepKeeps(s, run[0]);
      RunKeeps(Do(s, run[0]), run[1..]);
    }
  }

  // ---- Exactly once ------------------------------------------------------

  function AccountsOf(accounts: seq<Account>, orderId: Id): nat {
    if accounts == [] then 0 else
      (if accounts[0].orderId == orderId then 1 else 0) + AccountsOf(accounts[1..], orderId)
  }

  function ReceiptsOf(receipts: seq<Receipt>, orderId: Id): nat {
    if receipts == [] then 0 else
      (if receipts[0].orderId == orderId then 1 else 0) + ReceiptsOf(receipts[1..], orderId)
  }

  function OpeningsOf(ledger: seq<Opening>, accountId: Id): nat {
    if ledger == [] then 0 else
      (if ledger[0].accountId == accountId then 1 else 0) + OpeningsOf(ledger[1..], accountId)
  }

  lemma {:induction false} CountAccounts(accounts: seq<Account>, o: Id)
    requires forall i, j :: 0 <= i < j < |accounts| ==> accounts[i].orderId != accounts[j].orderId
    ensures AccountsOf(accounts, o) == if exists a :: a in accounts && a.orderId == o then 1 else 0
  {
    if accounts != [] {
      CountAccounts(accounts[1..], o);
      assert forall a :: a in accounts <==> a == accounts[0] || a in accounts[1..];
    }
  }

  lemma {:induction false} CountReceipts(receipts: seq<Receipt>, o: Id)
    requires forall i, j :: 0 <= i < j < |receipts| ==> receipts[i].orderId != receipts[j].orderId
    ensures ReceiptsOf(receipts, o) == if exists r :: r in receipts && r.orderId == o then 1 else 0
  {
    if receipts != [] {
      CountReceipts(receipts[1..], o);
      assert forall r :: r in receipts <==> r == receipts[0] || r in receipts[1..];
    }
  }

  lemma {:induction false} CountOpenings(ledger: seq<Opening>, accountId: Id)
    requires forall i, j :: 0 <= i < j < |ledger| ==> ledger[i].accountId != ledger[j].accountId
    ensures OpeningsOf(ledger, accountId) == if exists e :: e in ledger && e.accountId == accountId then 1 else 0
  {
    if ledger != [] {
      CountOpenings(ledger[1..], accountId);
      assert forall e :: e in ledger <==> e == ledger[0] || e in ledger[1..];
    }
  }

  /** After any run from empty tables: an order has one account, one receipt for its
      total and is fulfilled, or has neither and is not; none is left paid; and every
      account has one opening balance in the ledger, equal to its nominal. */
  ghost predicate ExactlyOnce(s: Tables) {
    && (forall o :: o in s.orders ==>
          var done := s.orders[o].status == Fulfilled;
          && s.orders[o].status != Paid
          && AccountsOf(s.accounts, o) == (if done then 1 else 0)
          && ReceiptsOf(s.receipts, o) == (if done then 1 else 0)
          && (done ==> Receipt(o, s.orders[o].total) in s.receipts))
    && (forall a :: a in s.accounts ==>
          a.orderId in s.orders && OpeningsOf(s.ledger, a.id) == 1 && Opening(a.id, a.nominal) in s.ledger)
    && |s.ledger| == |s.accounts|
  }

  lemma InvIsExactlyOnce(s: Tables)
    requires Inv(s) && Settled(s)
    ensures ExactlyOnce(s)
  {
    hide AccountFor, AccountsOf, ReceiptsOf, OpeningsOf;
    forall o | o in s.orders
      ensures var done := s.orders[o].status == Fulfilled;
        && AccountsOf(s.accounts, o) == (if done then 1 else 0)
        && ReceiptsOf(s.receipts, o) == (if done then 1 else 0)
        && (done ==> Receipt(o, s.orders[o].total) in s.receipts)
    {
      CountAccounts(s.accounts, o);
      CountReceipts(s.receipts, o);
      AccountForFinds(s.accounts, o);
      ReceiptOf(s, o);
    }
    forall a | a in s.accounts
      ensures OpeningsOf(s.ledger, a.id) == 1 && Opening(a.id, a.nominal) in s.ledger
    {
      LedgerOf(s, a);
    }
  }

  lemma ReceiptOf(s: Tables, o: Id)
    requires ReceiptsRight(s) && Settled(s) && o in s.orders
    ensures s.orders[o].status == Fulfilled <==> exists r :: r in s.receipts && r.orderId == o
    ensures s.orders[o].status == Fulfilled ==> Receipt(o, s.orders[o].total) in s.receipts
  {
  }

  lemma LedgerOf(s: Tables, a: Account)
    requires Linked(s) && DistinctAccounts(s) && a in s.accounts
    ensures OpeningsOf(s.ledger, a.id) == 1 && Opening(a.id, a.nominal) in s.ledger
  {
    hide OpeningsOf;
    var i :| 0 <= i < |s.accounts| && s.accounts[i] == a;
    assert s.ledger[i] == Opening(a.id, a.nominal) && s.ledger[i] in s.ledger;
    CountOpenings(s.ledger, a.id);
  }

  lemma RunsAreExactlyOnce(run: seq<Step>)
    ensures ExactlyOnce(After(EMPTY, run))
  {
    hide ExactlyOnce, After, Inv;
    EmptyHolds();
    RunKeeps(EMPTY, run);
    InvIsExactlyOnce(After(EMPTY, run));
  }

  lemma EmptyHolds()
    ensures Inv(EMPTY) && Settled(EMPTY)
  {
  }
}
