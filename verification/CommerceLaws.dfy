/** Idempotence, rollback and progress of the payment transactions. */
module CommerceLaws {
  import opened Options
  import opened SpecSets
  import opened Commerce
  import opened CommerceRuns

  // ---- Duplicates --------------------------------------------------------

  /** The key a step consumes when it commits a delivery. */
  function Consumed(s: Tables, step: Step): set<EventKey> {
    if step.Delivered? && Webhook(s, step.d, step.w).1 != Threw then {step.d.key} else {}
  }

  /** A run without the deliveries whose key an earlier committed delivery used. */
  function WithoutDuplicates(s: Tables, run: seq<Step>, seen: set<EventKey>): seq<Step>
    decreases |run|
  {
    if run == [] then []
    else if run[0].Delivered? && run[0].d.key in seen then WithoutDuplicates(s, run[1..], seen)
    else [run[0]] + WithoutDuplicates(Do(s, run[0]), run[1..], seen + Consumed(s, run[0]))
  }

  lemma EventsStay(s: Tables, step: Step)
    ensures forall k :: k in s.events ==> k in Do(s, step).events && Do(s, step).events[k] == s.events[k]
    ensures Consumed(s, step) <= Do(s, step).events.Keys
  {
    hide AccountFor, Prerequisites, Taken, IssueReceipt, SetAttempt;
  }

  /** Dropping every later duplicate of a committed delivery changes nothing: the
      tables end up the same, whatever the duplicates carry and wherever they come. */
  lemma {:induction false} DuplicatesDoNothing(s: Tables, run: seq<Step>, seen: set<EventKey>)
    requires seen <= s.events.Keys
    ensures After(s, WithoutDuplicates(s, run, seen)) == After(s, run)
    decreases |run|
  {
    hide Do, Consumed;
    if run != [] {
      if run[0].Delivered? && run[0].d.key in seen {
        DuplicateIsNoop(s, run[0]);
        DuplicatesDoNothing(s, run[1..], seen);
      } else {
        var next, more := Do(s, run[0]), seen + Consumed(s, run[0]);
        EventsStay(s, run[0]);
        DuplicatesDoNothing(next, run[1..], more);
        var rest := WithoutDuplicates(next, run[1..], more);
        assert ([run[0]] + rest)[1..] == rest;
      }
    }
  }

  lemma DuplicateIsNoop(s: Tables, step: Step)
    requires step.Delivered? && step.d.key in s.events
    ensures Webhook(s, step.d, step.w) == (s, Duplicate) && Do(s, step) == s
  {
  }

  // ---- Rollback and refusal ----------------------------------------------

  /** Recorded as evidence, and nothing more. */
  predicate RefusedOnly(r: Outcome) {
    r.InvalidSignature? || r.UnknownOrder? || r.AmountMismatch? || r.IgnoredOrderState?
  }

  /** A delivery that throws leaves every table as it was, so its event is still new.
      Mismatched, unknown, badly signed and wrongly timed deliveries add their event
      and change nothing else; a delivery never touches another order. */
  lemma DeliveryEffects(s: Tables, d: Delivery, w: World)
    ensures var (t, r) := Webhook(s, d, w);
      && (r == Threw || r == Duplicate ==> t == s)
      && (r != Threw ==> d.key in t.events)
      && (RefusedOnly(r) ==> t == s.(events := t.events) && t.events.Keys == s.events.Keys + {d.key})
      && (forall o :: o in s.orders && o != d.orderId ==> o in t.orders && t.orders[o] == s.orders[o])
      && t.orders.Keys == s.orders.Keys
  {
    hide AccountFor, Prerequisites, Taken, IssueReceipt, SetAttempt;
  }

  // ---- What an activation needs ------------------------------------------

  /** The policy the order was bought under, or the published one for an order without. */
  ghost predicate PinnedTo(order: Order, w: World, policyId: Id) {
    match order.policyVersion
    case Some(bought) => policyId == bought
    case None => w.published == Some(policyId)
  }

  ghost predicate Usable(policyId: Id, enforce: bool, w: World) {
    policyId in w.policies && w.policies[policyId].evaluation && (enforce ==> w.policies[policyId].ready)
  }

  ghost predicate HasPolicy(order: Order, enforce: bool, w: World) {
    exists policyId :: PinnedTo(order, w, policyId) && Usable(policyId, enforce, w)
  }

  ghost predicate Choosable(cs: seq<SpecSet>) {
    |cs| == 1 || (cs != [] && AllParse(cs))
  }

  ghost predicate IsChosen(cs: seq<SpecSet>, id: Id) {
    (|cs| == 1 && cs[0].id == id) || exists k :: IsLatest(cs, k) && cs[k].id == id
  }

  /** An activation has what it needs exactly when its policy is usable and a spec set can
      be chosen, and takes that policy and the latest spec set. */
  lemma PrerequisitesExactly(order: Order, enforce: bool, w: World)
    ensures var p := Prerequisites(order, enforce, w);
      && (p.Some? <==> Choosable(w.specSets) && HasPolicy(order, enforce, w))
      && (p.Some? ==> PinnedTo(order, w, p.value.0) && Usable(p.value.0, enforce, w) && IsChosen(w.specSets, p.value.1))
  {
    hide Fold, IsLatest, AllParse;
    FoldIsLatest(w.specSets);
    var policyId := if order.policyVersion.Some? then order.policyVersion else w.published;
    if policyId.Some? { assert PinnedTo(order, w, policyId.value); }
  }

  /** Everything an activation of this order needs. */
  ghost predicate CanActivate(s: Tables, d: Delivery, w: World) {
    && d.orderId in s.orders
    && s.orders[d.orderId].productVersion in w.nominals
    && HasPolicy(s.orders[d.orderId], d.enforce, w) && Choosable(w.specSets)
    && Unused(s, w)
  }

  /** No account has either of the identifiers that the database would generate. */
  ghost predicate Unused(s: Tables, w: World) {
    forall a :: a in s.accounts ==> a.id != w.newId && a.publicId != w.newPublicId
  }

  lemma UnusedExactly(s: Tables, w: World)
    ensures Taken(s.accounts, w.newId, w.newPublicId) <==> !Unused(s, w)
  {
  }

  /** For a fresh, genuine confirmation of a pending order: it throws exactly when the
      world cannot activate, and otherwise it commits everything at once. */
  lemma ConfirmationCompletes(s: Tables, d: Delivery, w: World)
    requires Inv(s) && d.key !in s.events && d.signatureValid && d.kind == PaymentConfirmedEvent
    requires d.orderId in s.orders
    requires s.orders[d.orderId].status == PendingPayment && s.orders[d.orderId].total == d.total
    ensures var (t, r) := Webhook(s, d, w);
      && (r == Threw <==> !CanActivate(s, d, w))
      && (CanActivate(s, d, w) ==>
            && r == Confirmed(Activated(w.newId, w.newPublicId, false))
            && d.orderId in t.orders && t.orders[d.orderId].status == Fulfilled
            && t.receipts == s.receipts + [Receipt(d.orderId, d.total)]
            && |t.accounts| == |s.accounts| + 1 && t.accounts[..|s.accounts|] == s.accounts
            && t.accounts[|s.accounts|].orderId == d.orderId)
  {
    hide AccountFor, Prerequisites, Taken, IssueReceipt, SetAttempt;
    AccountForFinds(s.accounts, d.orderId);
    var recorded := Record(s, d, Some(w.now));
    InvIgnores(s, recorded.events, s.attempts);
    assert Prerequisites(MarkPaid(recorded, d.orderId).orders[d.orderId], d.enforce, w)
        == Prerequisites(s.orders[d.orderId], d.enforce, w)
    by { StatusPlaysNoPart(s.orders[d.orderId], Paid, d.enforce, w); }
    PrerequisitesExactly(s.orders[d.orderId], d.enforce, w);
    UnusedExactly(s, w);
    hide HasPolicy, Choosable;
    if Confirm(recorded, d, w).Some? {
      ConfirmPending(recorded, d, w);
    }
  }

  lemma StatusPlaysNoPart(order: Order, status: OrderStatus, enforce: bool, w: World)
    ensures Prerequisites(order.(status := status), enforce, w) == Prerequisites(order, enforce, w)
  {
  }

  predicate Throws(s: Tables, step: Step) {
    step.Delivered? && Webhook(s, step.d, step.w).1 == Threw
  }

  /** A run without the deliveries that threw. */
  function WithoutThrown(s: Tables, run: seq<Step>): seq<Step>
    decreases |run|
  {
    if run == [] then []
    else (if Throws(s, run[0]) then [] else [run[0]]) + WithoutThrown(Do(s, run[0]), run[1..])
  }

  /** Dropping every delivery that threw, wherever it came in the run, changes nothing. */
  lemma {:induction false} ThrownDoNothing(s: Tables, run: seq<Step>)
    ensures After(s, WithoutThrown(s, run)) == After(s, run)
    decreases |run|
  {
    hide Webhook;
    if run != [] {
      ThrownDoNothing(Do(s, run[0]), run[1..]);
      var rest := WithoutThrown(Do(s, run[0]), run[1..]);
      if Throws(s, run[0]) {
        DeliveryEffects(s, run[0].d, run[0].w);
        assert [] + rest == rest;
      } else {
        assert ([run[0]] + rest)[1..] == rest;
      }
    }
  }

  /** Every delivery of this event in the run threw. */
  predicate AllThrew(s: Tables, run: seq<Step>, key: EventKey)
    decreases |run|
  {
    run == [] ||
    ((run[0].Delivered? && run[0].d.key == key ==> Throws(s, run[0])) && AllThrew(Do(s, run[0]), run[1..], key))
  }

  /** A delivery that commits uses up its event, and nothing else does. */
  lemma OwnKeyOnly(s: Tables, step: Step, key: EventKey)
    requires key !in s.events
    ensures key !in Do(s, step).events <==> (step.Delivered? && step.d.key == key ==> Throws(s, step))
  {
    hide AccountFor, Prerequisites, Taken, IssueReceipt, SetAttempt;
  }

  lemma {:induction false} KeyStaysUsed(s: Tables, run: seq<Step>, key: EventKey)
    requires key in s.events
    ensures key in After(s, run).events
    decreases |run|
  {
    hide Do, Consumed;
    if run != [] {
      EventsStay(s, run[0]);
      KeyStaysUsed(Do(s, run[0]), run[1..], key);
    }
  }

  /** An event is still new after a run exactly when every delivery of it threw. */
  lemma {:induction false} KeyStaysNew(s: Tables, run: seq<Step>, key: EventKey)
    requires key !in s.events
    ensures key !in After(s, run).events <==> AllThrew(s, run, key)
    decreases |run|
  {
    hide Do, Throws;
    if run != [] {
      OwnKeyOnly(s, run[0], key);
      if key in Do(s, run[0]).events {
        KeyStaysUsed(Do(s, run[0]), run[1..], key);
      } else {
        KeyStaysNew(Do(s, run[0]), run[1..], key);
      }
    }
  }

  /** A badly signed delivery uses up its event: whatever is delivered under the same key
      afterwards, genuine or not, is a duplicate and changes nothing. */
  lemma ForgedUsesUp(s: Tables, forged: Delivery, w: World, run: seq<Step>, d: Delivery, v: World)
    requires !forged.signatureValid && forged.key !in s.events && d.key == forged.key
    ensures Webhook(s, forged, w).1 == InvalidSignature
    ensures var t := After(Webhook(s, forged, w).0, run); Webhook(t, d, v) == (t, Duplicate)
  {
    hide AccountFor, Prerequisites, Taken, IssueReceipt, SetAttempt;
    KeyStaysUsed(Webhook(s, forged, w).0, run, d.key);
  }

  lemma {:induction false} AfterAppend(s: Tables, run: seq<Step>, step: Step)
    ensures After(s, run + [step]) == Do(After(s, run), step)
    decreases |run|
  {
    hide Do;
    if run == [] {
      assert run + [step] == [step] && [step][1..] == [];
    } else {
      assert (run + [step])[1..] == run[1..] + [step];
      AfterAppend(Do(s, run[0]), run[1..], step);
    }
  }

  /** Whatever steps came before, a genuine confirmation of a pending order completes it if
      and only if every earlier delivery of its event threw and the world can activate by
      then; and the tables end up as if the failed deliveries had never been. */
  lemma RedeliveryCompletes(s: Tables, run: seq<Step>, d: Delivery, w: World)
    requires Inv(s) && d.key !in s.events && d.signatureValid && d.kind == PaymentConfirmedEvent
    requires var t := After(s, run);
      d.orderId in t.orders && t.orders[d.orderId].status == PendingPayment && t.orders[d.orderId].total == d.total
    ensures var t := After(s, run);
      var (u, r) := Webhook(t, d, w);
      && (r == Confirmed(Activated(w.newId, w.newPublicId, false)) <==>
            AllThrew(s, run, d.key) && CanActivate(t, d, w))
      && (r == Duplicate <==> !AllThrew(s, run, d.key))
      && (AllThrew(s, run, d.key) && CanActivate(t, d, w) ==>
            && d.orderId in u.orders && u.orders[d.orderId].status == Fulfilled
            && u.receipts == t.receipts + [Receipt(d.orderId, d.total)]
            && |u.accounts| == |t.accounts| + 1 && u.accounts[|t.accounts|].orderId == d.orderId)
      && u == After(s, WithoutThrown(s, run) + [Delivered(d, w)])
  {
    hide Inv, CanActivate, AllThrew, WithoutThrown, After, Webhook;
    RunKeeps(s, run);
    KeyStaysNew(s, run, d.key);
    if AllThrew(s, run, d.key) {
      ConfirmationCompletes(After(s, run), d, w);
    } else {
      DuplicateIsNoop(After(s, run), Delivered(d, w));
    }
    ThrownDoNothing(s, run);
    AfterAppend(s, WithoutThrown(s, run), Delivered(d, w));
  }

  // ---- Progress ----------------------------------------------------------

  /** An order is cancelled before it is paid, refunded after, and fulfilled once it is. */
  lemma EnteredFrom(from: OrderStatus)
    ensures !Allowed(from, Created)
    ensures Allowed(from, PendingPayment) <==> from in {Created, PaymentFailed}
    ensures Allowed(from, Paid) <==> from == PendingPayment
    ensures Allowed(from, PaymentFailed) <==> from == PendingPayment
    ensures Allowed(from, Fulfilled) <==> from == Paid
    ensures Allowed(from, Cancelled) <==> from in {Created, PendingPayment, PaymentFailed}
    ensures Allowed(from, Refunded) <==> from in {Paid, Fulfilled}
  {
  }

  /** Statuses in a row, each of which the state machine lets follow the one before. */
  ghost predicate Leads(path: seq<OrderStatus>) {
    path != [] && forall i :: 0 <= i < |path| - 1 ==> Allowed(path[i], path[i + 1])
  }

  /** The reflexive and transitive closure of what the state machine allows. */
  ghost predicate Path(from: OrderStatus, next: OrderStatus) {
    exists path :: Leads(path) && path[0] == from && path[|path| - 1] == next
  }

  lemma PathJoins(a: OrderStatus, b: OrderStatus, c: OrderStatus)
    requires Path(a, b) && Path(b, c)
    ensures Path(a, c)
  {
    var p :| Leads(p) && p[0] == a && p[|p| - 1] == b;
    var q :| Leads(q) && q[0] == b && q[|q| - 1] == c;
    var pq := p + q[1..];
    assert Leads(pq) && pq[0] == a && pq[|pq| - 1] == c;
  }

  /** What one step may do to the tables: rows of accounts, receipts and ledger are
      only appended, what an order is for never changes, its status follows the state
      machine, fulfilled is never left, and paid is never newly entered. */
  ghost predicate Onward(s: Tables, t: Tables) {
    && s.accounts <= t.accounts && s.receipts <= t.receipts && s.ledger <= t.ledger
    && (forall o :: o in s.orders ==>
          && o in t.orders
          && t.orders[o] == s.orders[o].(status := t.orders[o].status)
          && Path(s.orders[o].status, t.orders[o].status)
          && (s.orders[o].status == Fulfilled ==> t.orders[o].status == Fulfilled))
    && (forall o :: o in t.orders && t.orders[o].status == Paid ==> o in s.orders && s.orders[o].status == Paid)
  }

  lemma OrderMoved(s: Tables, t: Tables, o: Id, status: OrderStatus)
    requires o in s.orders && t.orders == s.orders[o := s.orders[o].(status := status)]
    requires s.accounts <= t.accounts && s.receipts <= t.receipts && s.ledger <= t.ledger
    requires Path(s.orders[o].status, status) && s.orders[o].status != Fulfilled && status != Paid
    ensures Onward(s, t)
  {
    hide Path;
    AllStay();
  }

  lemma AllStay()
    ensures forall x: OrderStatus :: Path(x, x)
  {
    forall x: OrderStatus ensures Path(x, x) {
      assert Leads([x]);
    }
  }

  lemma Unchanged(s: Tables, t: Tables)
    requires t.orders == s.orders && t.accounts == s.accounts && t.receipts == s.receipts && t.ledger == s.ledger
    ensures Onward(s, t)
  {
    hide Path;
    AllStay();
  }

  lemma StepOnward(s: Tables, step: Step)
    requires Inv(s)
    ensures Onward(s, Do(s, step))
  {
    hide Onward, Webhook, ActivateAlone, Purchased, Inv, Path;
    match step
    case Purchase(_, _, _, _, _) => PurchaseOnward(s, step);
    case Preparation(o, userId, now) =>
      if o in s.orders && s.orders[o].status == PaymentFailed && Prepare(s, o, userId, now).0 != s {
        PathSteps();
        OrderMoved(s, Prepare(s, o, userId, now).0, o, PendingPayment);
      } else {
        Unchanged(s, s);
      }
    case AttemptMade(o, reference, total) => Unchanged(s, RecordAttempt(s, o, reference, total).0);
    case Delivered(d, w) => WebhookOnward(s, d, w);
    case Standalone(o, userId, nominal, enforce, w) => StandaloneOnward(s, o, userId, nominal, enforce, w);
  }

  lemma PathSteps()
    ensures Path(PaymentFailed, PendingPayment) && Path(PendingPayment, PaymentFailed)
    ensures Path(PendingPayment, Fulfilled) && Path(Paid, Fulfilled)
  {
    assert Leads([PaymentFailed, PendingPayment]) && Leads([PendingPayment, PaymentFailed]);
    assert Leads([PendingPayment, Paid, Fulfilled]) && Leads([Paid, Fulfilled]);
  }

  lemma PurchaseOnward(s: Tables, p: Step)
    requires p.Purchase?
    ensures Onward(s, Purchased(s, p))
  {
    hide Path;
    AllStay();
  }

  lemma WebhookOnward(s: Tables, d: Delivery, w: World)
    requires Inv(s)
    ensures Onward(s, Webhook(s, d, w).0)
  {
    hide Onward, Confirm, Inv, Path, IssueReceipt;
    var recorded := Record(s, d, Some(w.now));
    var (t, r) := Webhook(s, d, w);
    InvIgnores(s, recorded.events, s.attempts);
    PathSteps();
    match r
    case FailedRecorded =>
      if s.orders[d.orderId].status == PendingPayment {
        OrderMoved(s, t, d.orderId, PaymentFailed);
      } else {
        Unchanged(s, t);
      }
    case Confirmed(_) => ConfirmedOnward(s, recorded, d, w);
    case _ => Unchanged(s, t);
  }

  lemma ConfirmedOnward(s: Tables, recorded: Tables, d: Delivery, w: World)
    requires Inv(recorded) && recorded == s.(events := recorded.events)
    requires d.orderId in s.orders && s.orders[d.orderId].status in {PendingPayment, Paid, Fulfilled}
    requires Confirm(recorded, d, w).Some?
    ensures Onward(s, Confirm(recorded, d, w).value.0)
  {
    hide Onward, Inv, Path, Confirm;
    var t := Confirm(recorded, d, w).value.0;
    PathSteps();
    ConfirmAppends(recorded, d, w);
    match s.orders[d.orderId].status
    case PendingPayment =>
      ConfirmPending(recorded, d, w);
      OrderMoved(s, t, d.orderId, Fulfilled);
    case Paid =>
      ConfirmPaid(recorded, d, w);
      OrderMoved(s, t, d.orderId, Fulfilled);
    case _ =>
      ConfirmFulfilled(recorded, d, w);
      Unchanged(s, t);
  }

  lemma ConfirmAppends(s: Tables, d: Delivery, w: World)
    requires d.orderId in s.orders && Confirm(s, d, w).Some?
    ensures var t := Confirm(s, d, w).value.0;
      s.accounts <= t.accounts && s.receipts <= t.receipts && s.ledger <= t.ledger
  {
    hide AccountFor, Prerequisites, Taken;
  }

  lemma StandaloneOnward(s: Tables, o: Id, userId: Id, nominal: Money, enforce: bool, w: World)
    requires Inv(s)
    ensures Onward(s, ActivateAlone(s, o, userId, nominal, enforce, w).0)
  {
    hide Onward, Inv, Path, Activate;
    var t := ActivateAlone(s, o, userId, nominal, enforce, w).0;
    PathSteps();
    StandaloneAppends(s, o, userId, nominal, enforce, w);
    if o in s.orders && s.orders[o].userId == userId && s.orders[o].status == Paid
       && Activate(s, o, userId, nominal, enforce, w).Some? {
      PaidActivates(s, o, userId, nominal, enforce, w);
      OrderMoved(s, t, o, Fulfilled);
    } else {
      StandaloneElsewhere(s, o, userId, nominal, enforce, w);
      Unchanged(s, t);
    }
  }

  lemma StandaloneAppends(s: Tables, o: Id, userId: Id, nominal: Money, enforce: bool, w: World)
    ensures var t := ActivateAlone(s, o, userId, nominal, enforce, w).0;
      s.accounts <= t.accounts && s.receipts <= t.receipts && s.ledger <= t.ledger
  {
  }

  lemma StandaloneElsewhere(s: Tables, o: Id, userId: Id, nominal: Money, enforce: bool, w: World)
    requires Inv(s)
    requires o in s.orders && s.orders[o].userId == userId && s.orders[o].status == Paid ==>
      Activate(s, o, userId, nominal, enforce, w).None?
    ensures ActivateAlone(s, o, userId, nominal, enforce, w).0 == s
  {
  }

  /** Over whole runs too: rows are only appended, and orders only move along the paths of
      the state machine. */
  lemma {:induction false} RunOnward(s: Tables, run: seq<Step>)
    requires Inv(s)
    ensures var t := After(s, run);
      && s.accounts <= t.accounts && s.receipts <= t.receipts && s.ledger <= t.ledger
      && (forall o :: o in s.orders ==> o in t.orders && t.orders[o] == s.orders[o].(status := t.orders[o].status))
      && (forall o :: o in s.orders ==> Path(s.orders[o].status, t.orders[o].status))
      && (forall o :: o in s.orders && s.orders[o].status == Fulfilled ==> t.orders[o].status == Fulfilled)
      && (forall o :: o in t.orders && t.orders[o].status == Paid ==> o in s.orders && s.orders[o].status == Paid)
      && (forall k :: k in s.events ==> k in t.events && t.events[k] == s.events[k])
    decreases |run|
  {
    hide Inv, Do, Path;
    if run != [] {
      StepKeeps(s, run[0]);
      StepOnward(s, run[0]);
      EventsStay(s, run[0]);
      RunOnward(Do(s, run[0]), run[1..]);
      var next, t := Do(s, run[0]), After(s, run);
      forall o | o in s.orders ensures Path(s.orders[o].status, t.orders[o].status) {
        PathJoins(s.orders[o].status, next.orders[o].status, t.orders[o].status);
      }
    } else {
      AllStay();
    }
  }

  lemma {:induction false} AfterSplit(s: Tables, a: seq<Step>, b: seq<Step>)
    ensures After(s, a + b) == After(After(s, a), b)
    decreases |a|
  {
    hide Do;
    if a == [] {
      assert a + b == b;
    } else {
      assert (a + b)[1..] == a[1..] + b;
      AfterSplit(Do(s, a[0]), a[1..], b);
    }
  }

  /** Between any two moments of any run from empty tables. */
  lemma MomentsOnward(run: seq<Step>, m: nat, n: nat, o: Id)
    requires m <= n <= |run| && o in After(EMPTY, run[..m]).orders
    ensures var before, after := After(EMPTY, run[..m]), After(EMPTY, run[..n]);
      && o in after.orders && Path(before.orders[o].status, after.orders[o].status)
      && (before.orders[o].status == Fulfilled ==> after.orders[o].status == Fulfilled)
      && after.orders[o].status != Paid
  {
    hide Do, Path, Inv;
    EmptyHolds();
    RunKeeps(EMPTY, run[..m]);
    assert run[..m] + run[m..n] == run[..n];
    AfterSplit(EMPTY, run[..m], run[m..n]);
    RunOnward(After(EMPTY, run[..m]), run[m..n]);
    RunOnward(EMPTY, run[..n]);
  }

  /** When nothing waits between payment and activation, a standalone activation
      either throws or finds the account already there: it changes no table. */
  lemma StandaloneFindsAccount(run: seq<Step>, o: Id, userId: Id, nominal: Money, enforce: bool, w: World)
    ensures var s := After(EMPTY, run);
      var (t, r) := ActivateAlone(s, o, userId, nominal, enforce, w);
      && t == s
      && (r.Some? <==> o in s.orders && s.orders[o].status == Fulfilled && s.orders[o].userId == userId)
      && (r.Some? ==> r.value.alreadyExisted)
  {
    hide After, AccountFor;
    EmptyHolds();
    RunKeeps(EMPTY, run);
    var s := After(EMPTY, run);
    if o in s.orders && s.orders[o].status == Fulfilled {
      AlreadyActivated(s, o, userId, nominal, enforce, w);
    }
  }
}
