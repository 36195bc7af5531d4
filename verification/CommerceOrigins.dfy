/**
 Where every row comes from: what each answer says of the delivery and the order alone,
 and for every run which step wrote an order, an event, a receipt, an account or an attempt.
 */
module CommerceOrigins {
  import opened Options
  import opened Commerce
  import opened CommerceRuns
  import opened CommerceLaws

  // ---- What a delivery is answered ---------------------------------------

  /** A new, well signed delivery for an order that exists. */
  predicate Heard(s: Tables, d: Delivery) {
    d.key !in s.events && d.signatureValid && d.orderId in s.orders
  }

  /** And for exactly the order's total, amount and currency. */
  predicate Matches(s: Tables, d: Delivery) {
    Heard(s, d) && s.orders[d.orderId].total.amount == d.total.amount
    && s.orders[d.orderId].total.currency == d.total.currency
  }

  predicate Payable(status: OrderStatus) {
    status == PendingPayment || status == Paid || status == Fulfilled
  }

  /** The evidence a delivery leaves: its event and nothing else. */
  function Evidence(s: Tables, d: Delivery, w: World): Tables {
    var orderId := if d.orderId in s.orders then Some(d.orderId) else None;
    s.(events := s.events[d.key := Event(d.kind, d.signatureValid, orderId, Some(w.now))])
  }

  /** The answer, from the delivery and the order alone.  A total that is not the order's,
      in amount or in currency, is refused with both named, and only the event is kept. */
  lemma AnswersExactly(s: Tables, d: Delivery, w: World)
    ensures var (t, r) := Webhook(s, d, w);
      && (r == Duplicate <==> d.key in s.events)
      && (r == InvalidSignature <==> d.key !in s.events && !d.signatureValid)
      && (r == UnknownOrder <==> d.key !in s.events && d.signatureValid && d.orderId !in s.orders)
      && (r.AmountMismatch? <==> Heard(s, d) && !Matches(s, d))
      && (r.AmountMismatch? ==> r == AmountMismatch(s.orders[d.orderId].total, d.total))
      && (r == FailedRecorded <==> Matches(s, d) && d.kind == PaymentFailedEvent)
      && (r.IgnoredOrderState? <==>
            Matches(s, d) && d.kind == PaymentConfirmedEvent && !Payable(s.orders[d.orderId].status))
      && (r.IgnoredOrderState? ==> r.status == s.orders[d.orderId].status)
      && (r == Duplicate || r == Threw ==> t == s)
      && (RefusedOnly(r) ==> t == Evidence(s, d, w))
      && (r.Confirmed? ==> t.events == Evidence(s, d, w).events)
  {
    hide AccountFor, Prerequisites, Taken, IssueReceipt, SetAttempt;
  }

  /** A failed payment takes a pending order and its attempt with it, and no other. */
  lemma FailureEffects(s: Tables, d: Delivery, w: World)
    requires Matches(s, d) && d.kind == PaymentFailedEvent
    ensures var t, e, o := Webhook(s, d, w).0, Evidence(s, d, w), d.orderId;
      if s.orders[o].status == PendingPayment then
        && t == e.(orders := s.orders[o := s.orders[o].(status := PaymentFailed)], attempts := t.attempts)
        && (o in s.attempts ==> t.attempts == s.attempts[o := s.attempts[o].(status := AttemptFailed)])
        && (o !in s.attempts ==> t.attempts == s.attempts)
      else t == e
  {
  }

  /** A genuine confirmation of a fulfilled order finds its account and changes nothing, or
      throws for want of the product's nominal. */
  lemma AgainConfirmed(s: Tables, d: Delivery, w: World)
    requires Inv(s) && Matches(s, d) && d.kind == PaymentConfirmedEvent && s.orders[d.orderId].status == Fulfilled
    ensures var (t, r) := Webhook(s, d, w);
      && (r == Threw <==> s.orders[d.orderId].productVersion !in w.nominals)
      && (r != Threw ==>
            && t == Evidence(s, d, w)
            && exists a ::
                 a in s.accounts && a.orderId == d.orderId && r == Confirmed(Activated(a.id, a.publicId, true)))
  {
    hide AccountFor;
    AccountForFinds(s.accounts, d.orderId);
    assert AccountFor(s.accounts, d.orderId).Some?;
  }

  // ---- Preparing an order for payment -------------------------------------

  /** The order is there, and it is this user's. */
  predicate Owned(s: Tables, orderId: Id, userId: Id) {
    orderId in s.orders && s.orders[orderId].userId == userId
  }

  predicate PastDue(order: Order, now: int) {
    order.dueAt.Some? && order.dueAt.value < now
  }

  /** A payment can be prepared exactly for a pending or failed order of the user that is not
      past due.  It is pending then, and nothing else has changed; any other answer changes
      nothing at all. */
  lemma PreparedExactly(s: Tables, orderId: Id, userId: Id, now: int)
    ensures var (t, r) := Prepare(s, orderId, userId, now);
      && (r == Ready <==>
            Owned(s, orderId, userId) && !PastDue(s.orders[orderId], now)
            && s.orders[orderId].status in {PendingPayment, PaymentFailed})
      && (r == Ready ==>
            t == s.(orders := s.orders[orderId := s.orders[orderId].(status := PendingPayment)]))
      && (r != Ready ==> t == s)
      && (r == NotFound <==> !Owned(s, orderId, userId))
      && (r == Expired <==> Owned(s, orderId, userId) && PastDue(s.orders[orderId], now))
      && (r.AlreadyProcessed? <==>
            Owned(s, orderId, userId) && !PastDue(s.orders[orderId], now)
            && s.orders[orderId].status in {Paid, Fulfilled})
      && (r.AlreadyProcessed? || r.Unavailable? ==> r.status == s.orders[orderId].status)
  {
    if orderId in s.orders && s.orders[orderId].status == PendingPayment {
      assert s.orders[orderId := s.orders[orderId].(status := PendingPayment)] == s.orders;
    }
  }

  /** What preparation is for: once it has answered Ready, and whatever follows that leaves
      the order pending, a genuine confirmation of its total with a new event completes it
      if and only if the world can activate it. */
  lemma ReadyCompletes(s: Tables, orderId: Id, userId: Id, now: int, run: seq<Step>, d: Delivery, w: World)
    requires Inv(s) && Prepare(s, orderId, userId, now).1 == Ready
    requires d.key !in s.events && d.orderId == orderId && d.signatureValid && d.kind == PaymentConfirmedEvent
    requires var t := After(Prepare(s, orderId, userId, now).0, run);
      orderId in t.orders && t.orders[orderId].status == PendingPayment && t.orders[orderId].total == d.total
    ensures var ready := Prepare(s, orderId, userId, now).0;
      var t := After(ready, run);
      var (u, r) := Webhook(t, d, w);
      && ready.orders[orderId].status == PendingPayment
      && (r == Confirmed(Activated(w.newId, w.newPublicId, false)) <==>
            AllThrew(ready, run, d.key) && CanActivate(t, d, w))
      && (AllThrew(ready, run, d.key) && CanActivate(t, d, w) ==>
            orderId in u.orders && u.orders[orderId].status == Fulfilled)
  {
    hide Inv, CanActivate, After, Webhook;
    PreparedExactly(s, orderId, userId, now);
    PreparationKeeps(s, orderId, userId, now);
    RedeliveryCompletes(Prepare(s, orderId, userId, now).0, run, d, w);
  }

  // ---- Which step wrote a row ---------------------------------------------

  /** A consented purchase of an offer, at the server's price and policy. */
  ghost predicate Buys(step: Step, id: Id, order: Order) {
    && step.Purchase? && step.consented && step.w.newId == id
    && step.productCode in step.w.offers && step.w.published.Some?
    && var offer := step.w.offers[step.productCode];
       && order.userId == step.userId && order.idempotencyKey == step.idempotencyKey
       && order.productVersion == offer.productVersion && order.total == offer.price
       && order.policyVersion == step.w.published && order.dueAt == None
  }

  /** A genuine confirmation of this order that carried exactly this total. */
  predicate Pays(step: Step, orderId: Id, total: Money) {
    && step.Delivered? && step.d.signatureValid && step.d.kind == PaymentConfirmedEvent
    && step.d.orderId == orderId && step.d.total == total
  }

  /** The account that this confirmation opens for this order. */
  ghost predicate Opens(step: Step, order: Order, a: Account) {
    && Pays(step, a.orderId, order.total)
    && a.id == step.w.newId && a.publicId == step.w.newPublicId && a.activatedAt == step.w.now
    && a.userId == order.userId
    && order.productVersion in step.w.nominals && a.nominal == step.w.nominals[order.productVersion]
    && PinnedTo(order, step.w, a.policyVersion) && Usable(a.policyVersion, step.d.enforce, step.w)
    && IsChosen(step.w.specSets, a.specSet)
  }

  /** The delivery that left this event, in the tables it found. */
  ghost predicate Leaves(s: Tables, step: Step, key: EventKey, e: Event) {
    && step.Delivered? && step.d.key == key
    && e.kind == step.d.kind && e.signatureValid == step.d.signatureValid && e.processedAt == Some(step.w.now)
    && e.orderId == (if step.d.orderId in s.orders then Some(step.d.orderId) else None)
  }

  /** What one step adds, it adds in its own right; what was there stays, but for the
      status of orders. */
  lemma StepOrigins(s: Tables, step: Step)
    requires Inv(s) && Settled(s)
    ensures var t := Do(s, step);
      && (forall o :: o in s.orders ==> o in t.orders && t.orders[o] == s.orders[o].(status := t.orders[o].status))
      && (forall o :: o in t.orders && o !in s.orders ==>
            Buys(step, o, t.orders[o]) && t.orders[o].status == PendingPayment)
      && (forall k :: k in t.events ==>
            (k in s.events && t.events[k] == s.events[k]) || Leaves(s, step, k, t.events[k]))
      && (forall r :: r in t.receipts ==> r in s.receipts || Pays(step, r.orderId, r.total))
      && (forall a :: a in t.accounts ==>
            a in s.accounts || (a.orderId in s.orders && Opens(step, s.orders[a.orderId], a)))
  {
    hide Inv, Settled, Webhook, ActivateAlone, Purchased;
    match step
    case Purchase(_, _, _, _, _) => PurchaseOrigins(s, step);
    case Preparation(o, userId, now) => PreparedExactly(s, o, userId, now);
    case AttemptMade(_, _, _) =>
    case Delivered(d, w) => WebhookOrigins(s, d, w);
    case Standalone(o, userId, nominal, enforce, w) => StandaloneKeeps(s, o, userId, nominal, enforce, w);
  }

  lemma PurchaseOrigins(s: Tables, p: Step)
    requires p.Purchase?
    ensures var t := Purchased(s, p);
      && t == s.(orders := t.orders)
      && (forall o :: o in s.orders ==> o in t.orders && t.orders[o] == s.orders[o])
      && (forall o :: o in t.orders && o !in s.orders ==>
            Buys(p, o, t.orders[o]) && t.orders[o].status == PendingPayment)
  {
  }

  lemma WebhookOrigins(s: Tables, d: Delivery, w: World)
    requires Inv(s) && Settled(s)
    ensures var t, step := Webhook(s, d, w).0, Delivered(d, w);
      && (forall o :: o in s.orders ==> o in t.orders && t.orders[o] == s.orders[o].(status := t.orders[o].status))
      && t.orders.Keys == s.orders.Keys
      && (forall k :: k in t.events ==>
            (k in s.events && t.events[k] == s.events[k]) || Leaves(s, step, k, t.events[k]))
      && (forall r :: r in t.receipts ==> r in s.receipts || Pays(step, r.orderId, r.total))
      && (forall a :: a in t.accounts ==>
            a in s.accounts || (a.orderId in s.orders && Opens(step, s.orders[a.orderId], a)))
  {
    hide Inv, Confirm, MarkFailed, Opens, AccountFor;
    AnswersExactly(s, d, w);
    var (t, r) := Webhook(s, d, w);
    match r
    case FailedRecorded => FailureEffects(s, d, w);
    case Confirmed(_) =>
      var recorded := Record(s, d, Some(w.now));
      InvIgnores(s, recorded.events, s.attempts);
      if s.orders[d.orderId].status == PendingPayment {
        ConfirmPending(recorded, d, w);
        ConfirmOrigin(s, recorded, d, w);
      } else {
        ConfirmFulfilled(recorded, d, w);
      }
    case _ =>
  }

  lemma ConfirmOrigin(s: Tables, recorded: Tables, d: Delivery, w: World)
    requires Inv(recorded) && recorded == s.(events := recorded.events)
    requires d.signatureValid && d.kind == PaymentConfirmedEvent
    requires d.orderId in s.orders && s.orders[d.orderId].status == PendingPayment
    requires s.orders[d.orderId].total == d.total
    requires Confirm(recorded, d, w).Some?
    ensures var t := Confirm(recorded, d, w).value.0;
      forall a :: a in t.accounts ==>
        a in s.accounts || (a.orderId in s.orders && Opens(Delivered(d, w), s.orders[a.orderId], a))
  {
    hide Inv, AccountFor, Taken, Prerequisites, SetAttempt, IssueReceipt, IsChosen, Usable;
    var o, order := d.orderId, s.orders[d.orderId];
    var a := ConfirmOpens(recorded, d, w);
    var t := Confirm(recorded, d, w).value.0;
    StatusPlaysNoPart(order, Paid, d.enforce, w);
    PrerequisitesExactly(order, d.enforce, w);
    assert t.accounts == s.accounts + [a];
    assert PinnedTo(order, w, a.policyVersion) <==> PinnedTo(order.(status := Paid), w, a.policyVersion);
    assert Opens(Delivered(d, w), order, a);
  }

  ghost predicate BoughtIn(run: seq<Step>, id: Id, order: Order) {
    exists i :: 0 <= i < |run| && Buys(run[i], id, order)
  }

  ghost predicate PaidIn(run: seq<Step>, orderId: Id, total: Money) {
    exists i :: 0 <= i < |run| && Pays(run[i], orderId, total)
  }

  ghost predicate OpenedIn(run: seq<Step>, order: Order, a: Account) {
    exists i :: 0 <= i < |run| && Opens(run[i], order, a)
  }

  ghost predicate LeftIn(run: seq<Step>, key: EventKey, e: Event) {
    exists i :: 0 <= i < |run| && Leaves(After(EMPTY, run[..i]), run[i], key, e)
  }

  /** Every order was bought with consent at the server's price and policy, every event left
      by a delivery that carried it, every receipt and every account paid for by a genuine
      confirmation of exactly its order's total, and the account is that confirmation's: its
      owner, nominal, policy, spec set and time. */
  ghost predicate AllFrom(s: Tables, run: seq<Step>) {
    && (forall o :: o in s.orders ==> BoughtIn(run, o, s.orders[o]))
    && (forall k :: k in s.events ==> LeftIn(run, k, s.events[k]))
    && (forall r :: r in s.receipts ==>
          r.orderId in s.orders && r.total == s.orders[r.orderId].total && PaidIn(run, r.orderId, r.total))
    && (forall a :: a in s.accounts ==> a.orderId in s.orders && OpenedIn(run, s.orders[a.orderId], a))
  }

  lemma StillIn(run: seq<Step>, step: Step)
    ensures forall o, order :: BoughtIn(run, o, order) || Buys(step, o, order) ==> BoughtIn(run + [step], o, order)
    ensures forall o, total :: PaidIn(run, o, total) || Pays(step, o, total) ==> PaidIn(run + [step], o, total)
    ensures forall order, a :: OpenedIn(run, order, a) || Opens(step, order, a) ==> OpenedIn(run + [step], order, a)
  {
    hide Buys, Pays, Opens;
    var all := run + [step];
    assert all[|run|] == step;
    assert forall i :: 0 <= i < |run| ==> all[i] == run[i];
  }

  lemma StillLeft(run: seq<Step>, step: Step, key: EventKey, e: Event)
    requires LeftIn(run, key, e) || Leaves(After(EMPTY, run), step, key, e)
    ensures LeftIn(run + [step], key, e)
  {
    hide Leaves, After;
    var all := run + [step];
    assert all[..|run|] == run && all[|run|] == step;
    if LeftIn(run, key, e) {
      var i :| 0 <= i < |run| && Leaves(After(EMPTY, run[..i]), run[i], key, e);
      assert all[..i] == run[..i] && all[i] == run[i];
    }
  }

  lemma {:induction false} RunOrigins(run: seq<Step>)
    ensures AllFrom(After(EMPTY, run), run)
    decreases |run|
  {
    hide Inv, Settled, Do, Buys, Pays, Opens, Leaves, LeftIn, BoughtIn, PaidIn, OpenedIn;
    if run != [] {
      var n := |run| - 1;
      var init, step := run[..n], run[n];
      assert run == init + [step];
      RunOrigins(init);
      EmptyHolds();
      RunKeeps(EMPTY, init);
      RunKeeps(EMPTY, run);
      AfterAppend(EMPTY, init, step);
      var s := After(EMPTY, init);
      var t := After(EMPTY, run);
      StepOrigins(s, step);
      StillIn(init, step);
      StatusIsFree(init, step);
      forall k | k in t.events ensures LeftIn(run, k, t.events[k]) { StillLeft(init, step, k, t.events[k]); }
      ReceiptsOfOrders(t);
      forall a | a in t.accounts ensures a.orderId in t.orders && OpenedIn(run, t.orders[a.orderId], a) {
        assert a.orderId in s.orders;
      }
    }
  }

  /** Who bought an order and what an account was opened for do not depend on its status. */
  lemma StatusIsFree(run: seq<Step>, step: Step)
    ensures forall o, order, status ::
      BoughtIn(run + [step], o, order) ==> BoughtIn(run + [step], o, order.(status := status))
    ensures forall order, a, status ::
      OpenedIn(run + [step], order, a) ==> OpenedIn(run + [step], order.(status := status), a)
  {
  }

  lemma ReceiptsOfOrders(s: Tables)
    requires Inv(s)
    ensures forall r :: r in s.receipts ==> r.orderId in s.orders && r.total == s.orders[r.orderId].total
  {
    hide AccountFor;
  }

  // ---- Creating an order --------------------------------------------------

  predicate OnSale(p: Step)
    requires p.Purchase?
  {
    p.productCode in p.w.offers && p.w.published.Some?
  }

  ghost predicate AskedBefore(s: Tables, p: Step)
    requires p.Purchase?
  {
    exists id :: id in s.orders && SameIntent(s.orders[id], p)
  }

  /** A new order is created exactly for a product on sale, a consenting user and a new key;
      a repeated key gives the order it gave before. */
  lemma CreationExactly(s: Tables, p: Step, t: Tables, r: Creation)
    requires p.Purchase? && Creates(s, p.productCode, p.userId, p.idempotencyKey, p.consented, p.w, t, r)
    ensures r == ProductNotAvailable <==> !OnSale(p)
    ensures r == ConsentRequired <==> OnSale(p) && !p.consented
    ensures r.ExistingOrder? <==> OnSale(p) && p.consented && AskedBefore(s, p)
    ensures r.ExistingOrder? ==> r.id in s.orders && SameIntent(s.orders[r.id], p)
    ensures r.CreatedOrder? <==> OnSale(p) && p.consented && !AskedBefore(s, p) && p.w.newId !in s.orders
    ensures r.CreatedOrder? ==>
      r.id == p.w.newId && r.id in t.orders && Buys(p, r.id, t.orders[r.id]) && t.orders[r.id].status == PendingPayment
    ensures !r.CreatedOrder? ==> t == s
  {
    assert AskedBefore(s, p) <==> exists id :: Holds(s.orders, id, p.userId, p.idempotencyKey) by {
      if id :| id in s.orders && SameIntent(s.orders[id], p) {
        assert Holds(s.orders, id, p.userId, p.idempotencyKey);
      }
    }
  }

  // ---- Attempts -----------------------------------------------------------

  /** The attempt of an order after it got this status, if there is one. */
  ghost predicate AttemptIs(before: map<Id, Attempt>, after: map<Id, Attempt>, o: Id, status: AttemptStatus) {
    && (o in after <==> o in before)
    && (o in before ==> after[o] == Attempt(status, before[o].reference, before[o].total))
  }

  predicate Moves(s: Tables, t: Tables, o: Id, status: OrderStatus) {
    o in s.orders && o in t.orders && s.orders[o].status == PendingPayment && t.orders[o].status == status
  }

  /** The attempt of an order is replaced when one is made, confirmed when its order goes from
      pending to fulfilled, failed when it goes from pending to failed, and else untouched. */
  lemma AttemptsFollow(s: Tables, step: Step, o: Id)
    requires Inv(s) && Settled(s)
    ensures var t := Do(s, step);
      if step.AttemptMade? && step.orderId == o && o in s.orders then
        o in t.attempts && t.attempts[o] == Attempt(Initiated, step.reference, step.total)
      else if Moves(s, t, o, Fulfilled) then
        AttemptIs(s.attempts, t.attempts, o, AttemptConfirmed)
      else if Moves(s, t, o, PaymentFailed) then
        AttemptIs(s.attempts, t.attempts, o, AttemptFailed)
      else
        (o in t.attempts <==> o in s.attempts) && (o in s.attempts ==> t.attempts[o] == s.attempts[o])
  {
    hide Inv, Settled, Webhook, ActivateAlone, Purchased;
    match step
    case Purchase(_, _, _, _, _) => PurchaseOrigins(s, step);
    case Preparation(id, userId, now) => PreparedExactly(s, id, userId, now);
    case AttemptMade(_, _, _) =>
    case Delivered(d, w) => DeliveryAttempts(s, d, w, o);
    case Standalone(id, userId, nominal, enforce, w) => StandaloneKeeps(s, id, userId, nominal, enforce, w);
  }

  lemma DeliveryAttempts(s: Tables, d: Delivery, w: World, o: Id)
    requires Inv(s) && Settled(s)
    ensures var t := Webhook(s, d, w).0;
      if Moves(s, t, o, Fulfilled) then
        AttemptIs(s.attempts, t.attempts, o, AttemptConfirmed)
      else if Moves(s, t, o, PaymentFailed) then
        AttemptIs(s.attempts, t.attempts, o, AttemptFailed)
      else
        (o in t.attempts <==> o in s.attempts) && (o in s.attempts ==> t.attempts[o] == s.attempts[o])
  {
    hide Inv, Confirm;
    AnswersExactly(s, d, w);
    var (t, r) := Webhook(s, d, w);
    match r
    case FailedRecorded => FailureEffects(s, d, w);
    case Confirmed(_) =>
      var recorded := Record(s, d, Some(w.now));
      InvIgnores(s, recorded.events, s.attempts);
      if s.orders[d.orderId].status == PendingPayment {
        ConfirmPending(recorded, d, w);
        var a := ConfirmOpens(recorded, d, w);
      } else {
        ConfirmFulfilled(recorded, d, w);
      }
    case _ =>
  }

  /** An attempt is recorded exactly for an order that exists, and changes nothing else. */
  lemma AttemptExactly(s: Tables, o: Id, reference: string, total: Money)
    ensures var (t, recorded) := RecordAttempt(s, o, reference, total);
      && (recorded <==> o in s.orders) && (!recorded ==> t == s) && t == s.(attempts := t.attempts)
  {
  }

  /** Issuing a receipt twice issues it once: an order keeps the receipt it has. */
  lemma OneReceipt(receipts: seq<Receipt>, r: Receipt)
    requires forall i, j :: 0 <= i < j < |receipts| ==> receipts[i].orderId != receipts[j].orderId
    ensures var after := IssueReceipt(receipts, r);
      && receipts <= after && (exists q :: q in after && q.orderId == r.orderId)
      && forall i, j :: 0 <= i < j < |after| ==> after[i].orderId != after[j].orderId
  {
    assert IssueReceipt(receipts, r) == receipts + [r] ==> (receipts + [r])[|receipts|] == r;
  }

  // ---- Activating on its own ----------------------------------------------

  /** Activation finds the order's account or opens one with all that it needs; only a paid
      order moves on by it. */
  lemma ActivationExactly(s: Tables, o: Id, userId: Id, nominal: Money, enforce: bool, w: World)
    ensures var r := Activate(s, o, userId, nominal, enforce, w);
      var found := exists a :: a in s.accounts && a.orderId == o;
      && (r.Some? <==>
            found || (o in s.orders && HasPolicy(s.orders[o], enforce, w) && Choosable(w.specSets) && Unused(s, w)))
      && (r.Some? && found ==>
            && r.value.0 == s && r.value.1.alreadyExisted
            && exists a ::
                 a in s.accounts && a.orderId == o && r.value.1.id == a.id && r.value.1.publicId == a.publicId)
      && (r.Some? && !found ==>
            && r.value.1 == Activated(w.newId, w.newPublicId, false)
            && r.value.0.orders
               == if s.orders[o].status == Paid then s.orders[o := s.orders[o].(status := Fulfilled)] else s.orders)
  {
    hide Prerequisites, HasPolicy, Choosable, Taken, Unused;
    AccountForFinds(s.accounts, o);
    UnusedExactly(s, w);
    if o in s.orders { PrerequisitesExactly(s.orders[o], enforce, w); }
  }

  /** A standalone activation answers exactly the owner of an order that is fulfilled, or paid
      with all that an activation needs, which it then fulfils with the account asked for. */
  lemma StandaloneExactly(s: Tables, o: Id, userId: Id, nominal: Money, enforce: bool, w: World)
    requires Inv(s)
    ensures var (t, r) := ActivateAlone(s, o, userId, nominal, enforce, w);
      && (r.Some? <==>
            Owned(s, o, userId)
            && (s.orders[o].status == Fulfilled
                || (s.orders[o].status == Paid && HasPolicy(s.orders[o], enforce, w) && Choosable(w.specSets)
                    && Unused(s, w))))
      && (r.None? ==> t == s)
      && (r.Some? && s.orders[o].status == Fulfilled ==> t == s && r.value.alreadyExisted)
      && (r.Some? && s.orders[o].status == Paid ==>
            && t.orders == s.orders[o := s.orders[o].(status := Fulfilled)]
            && |t.accounts| == |s.accounts| + 1 && t.accounts[..|s.accounts|] == s.accounts
            && var a := t.accounts[|s.accounts|];
               && a.orderId == o && a.userId == userId && a.nominal == nominal
               && a.id == w.newId && a.publicId == w.newPublicId && a.activatedAt == w.now
               && PinnedTo(s.orders[o], w, a.policyVersion) && Usable(a.policyVersion, enforce, w)
               && IsChosen(w.specSets, a.specSet))
  {
    hide AccountFor, Taken, Prerequisites, HasPolicy, Choosable, IsChosen, PinnedTo, Usable, Unused;
    if o in s.orders {
      AccountForFinds(s.accounts, o);
      PrerequisitesExactly(s.orders[o], enforce, w);
      UnusedExactly(s, w);
      if s.orders[o].status == Fulfilled { AlreadyActivated(s, o, userId, nominal, enforce, w); }
    }
  }
}
