/** Where a payout's amounts, statuses and ledger entries come from, in every run. */
module PayoutOrigins {
  import opened Options
  import opened Payouts
  import opened PayoutRuns

  // ---- What each event does to a request ---------------------------------

  /** An eligible approval of a request that waits for review. */
  predicate Approves(w: World, e: Event, id: string) {
    e.Approve? && e.id == id && e.eligible && id in w.db.requests && w.db.requests[id].status == PendingReview
  }

  /** An approval of an ineligible request, or the write of a rejection, on an open cycle. */
  predicate TurnsDown(w: World, e: Event, id: string) {
    && id in w.db.requests && !IsClosed(w.db, id)
    && match e
       case Approve(other, eligible, _, _) =>
         other == id && !eligible && w.db.requests[id].status == PendingReview
       case PersistReject(call) =>
         call in w.calls && w.calls[call] == Rejecting(id) && w.db.requests[id].status != Reversed
       case _ => false
  }

  /** The first answer of a provider to an approved request. */
  predicate Sends(w: World, e: Event, id: string) {
    && e.PersistSubmit? && e.call in w.calls && w.calls[e.call].Answered? && w.calls[e.call].id == id
    && id in w.db.requests && w.db.requests[id].status == Approved
  }

  /** The outcome of a payout that is in process, on an open cycle. */
  predicate Hears(w: World, e: Event, id: string, status: ProviderStatus) {
    && e.PersistReconcile? && e.call in w.calls && w.calls[e.call].Confirmed? && w.calls[e.call].id == id
    && w.calls[e.call].reconciled.observed.status == status
    && id in w.db.requests && w.db.requests[id].status == InProcess && !IsClosed(w.db, id)
  }

  predicate Settles(w: World, e: Event, id: string) {
    Hears(w, e, id, Paid) && e.matches
  }

  predicate Fails(w: World, e: Event, id: string) {
    Hears(w, e, id, Failed) || Hears(w, e, id, Returned)
  }

  predicate Reverses(w: World, e: Event, id: string) {
    && e.Reverse? && e.id == id && e.before && e.after
    && id in w.db.requests && w.db.requests[id].status == Settled
  }

  /** The row of a request after an event, told from what was reported of it. */
  function Told(w: World, e: Event, id: string): Row
    requires id in w.db.requests
  {
    var row := w.db.requests[id];
    if Approves(w, e, id) then row.(status := Approved, grossBase := e.grossBase, netCash := Some(e.netCash))
    else if TurnsDown(w, e, id) then row.(status := Rejected)
    else if Sends(w, e, id) then
      var s := w.calls[e.call].submitted;
      row.(status := InProcess, provider := Some(s.provider), reference := Some(Key(id)), key := Some(Key(id)),
           providerStatus := Some(s.status))
    else if Settles(w, e, id) then row.(status := Settled, providerStatus := Some(Paid))
    else if Fails(w, e, id) then
      row.(status := Unpaid, providerStatus := Some(w.calls[e.call].reconciled.observed.status))
    else if Reverses(w, e, id) then row.(status := Reversed)
    else row
  }

  lemma ReviewTold(w: World, e: Event, id: string)
    requires id in w.db.requests && (e.Approve? || e.PersistReject?)
    ensures RowAfter(w.db.requests[id], Transaction(w, e, id)) == Told(w, e, id)
  {
    hide IsClosed;
  }

  lemma SubmissionTold(w: World, call: nat, id: string)
    requires Consistent(w) && id in w.db.requests
    ensures RowAfter(w.db.requests[id], Transaction(w, PersistSubmit(call), id)) == Told(w, PersistSubmit(call), id)
  {
    hide TablesOk, MemoryOk, AskedOk, IsClosed, Key;
    RowIsOk(w, id);
    if call in w.calls { assert CallOk(w.db.requests, w.calls[call]); }
  }

  lemma OutcomeTold(w: World, call: nat, matches: bool, id: string)
    requires Consistent(w) && id in w.db.requests
    ensures var e := PersistReconcile(call, matches);
      RowAfter(w.db.requests[id], Transaction(w, e, id)) == Told(w, e, id)
  {
    hide TablesOk, MemoryOk, AskedOk, IsClosed, Key;
    RowIsOk(w, id);
    if call in w.calls { assert CallOk(w.db.requests, w.calls[call]); }
  }

  lemma RowIsOk(w: World, id: string)
    requires Consistent(w) && id in w.db.requests
    ensures RowOk(id, w.db.requests[id])
  {
    hide Step;
  }

  lemma ReversalTold(w: World, id: string, before: bool, after: bool)
    requires Consistent(w) && id in w.db.requests
    ensures var e := Reverse(id, before, after);
      RowAfter(w.db.requests[id], Transaction(w, e, id)) == Told(w, e, id)
  {
    hide Consistent, IsClosed, Debit;
    if w.db.requests[id].status == Settled { DebitIsThere(w, id); }
  }

  /** A request changes by an approval, a rejection, the first answer, an outcome or a
      reversal, as each reports, and by nothing else. */
  lemma RowsExactly(w: World, e: Event, id: string)
    requires Consistent(w) && id in w.db.requests
    ensures id in Step(w, e).db.requests && Step(w, e).db.requests[id] == Told(w, e, id)
  {
    hide Consistent, Step, AfterApproval, AfterSubmission, AfterReconciliation, AfterReversal, AfterRejection, IsClosed;
    StepRow(w, e, id);
    match e
    case Approve(_, _, _, _) => ReviewTold(w, e, id);
    case PersistReject(_) => ReviewTold(w, e, id);
    case PersistSubmit(call) => SubmissionTold(w, call, id);
    case PersistReconcile(call, matches) => OutcomeTold(w, call, matches, id);
    case Reverse(other, before, after) => if other == id { ReversalTold(w, id, before, after); }
    case _ =>
  }

  lemma DebitIsThere(w: World, id: string)
    requires Consistent(w) && id in w.db.requests && w.db.requests[id].status == Settled
    ensures Debit(w.db.ledger, id) == Some(Entry(PayoutDebit, -w.db.requests[id].grossBase, id))
  {
    hide Step;
    DebitAmongEntries(w.db.ledger, id);
  }

  /** A cycle is closed by the settlement of one of its requests, and by nothing else. */
  lemma ClosedExactly(w: World, e: Event, cycle: string)
    requires Consistent(w)
    ensures cycle in Step(w, e).db.closed <==>
      cycle in w.db.closed || exists id :: Settles(w, e, id) && w.db.requests[id].cycle == cycle
  {
    hide Consistent, AfterApproval, AfterSubmission, AfterRejection, AfterReversal, Key, HasActive;
    if e.PersistReconcile? && e.call in w.calls && w.calls[e.call].Confirmed? {
      OutcomeCloses(w, e.call, e.matches, cycle);
    } else {
      OthersClose(w, e);
    }
  }

  lemma OthersClose(w: World, e: Event)
    requires !(e.PersistReconcile? && e.call in w.calls && w.calls[e.call].Confirmed?)
    ensures Step(w, e).db.closed == w.db.closed
  {
    hide SubmitTo, ReconcileAt, Reconcilable, Memory, HasActive, Key, IsClosed, Debit;
  }

  lemma OutcomeCloses(w: World, call: nat, matches: bool, cycle: string)
    requires Consistent(w) && call in w.calls && w.calls[call].Confirmed?
    ensures var e := PersistReconcile(call, matches);
      cycle in Step(w, e).db.closed <==>
      cycle in w.db.closed || exists id :: Settles(w, e, id) && w.db.requests[id].cycle == cycle
  {
    hide TablesOk, MemoryOk, AskedOk, Key;
    var id := w.calls[call].id;
    assert CallOk(w.db.requests, w.calls[call]);
    RowIsOk(w, id);
    assert Settles(w, PersistReconcile(call, matches), id) || !Settles(w, PersistReconcile(call, matches), id);
  }

  // ---- Over a run ---------------------------------------------------------

  /** This event gives the request this status. */
  predicate Gives(w: World, e: Event, id: string, status: RequestStatus) {
    match status
    case Approved => Approves(w, e, id)
    case Rejected => TurnsDown(w, e, id)
    case InProcess => Sends(w, e, id)
    case Settled => Settles(w, e, id)
    case Unpaid => Fails(w, e, id)
    case Reversed => Reverses(w, e, id)
    case _ => false
  }

  ghost predicate GivenAt(w: World, events: seq<Event>, k: int, id: string, status: RequestStatus) {
    0 <= k < |events| && Gives(At(w, events, k), events[k], id, status)
  }

  ghost predicate GivenBefore(w: World, events: seq<Event>, n: nat, id: string, status: RequestStatus) {
    exists k :: k < n && GivenAt(w, events, k, id, status)
  }

  lemma StatusGiven(w: World, e: Event, id: string)
    requires Consistent(w) && id in w.db.requests
    ensures id in Step(w, e).db.requests
    ensures var before, after := w.db.requests[id].status, Step(w, e).db.requests[id].status;
      after == before || Gives(w, e, id, after)
  {
    hide Consistent, Step, Key;
    RowsExactly(w, e, id);
  }

  /** A request that could still be paid out. */
  predicate Live(status: RequestStatus) {
    status in {PendingReview, NeedsInformation, Approved, InProcess}
  }

  ghost predicate NoneLive(w: World, cycle: string) {
    forall other :: other in w.db.requests && w.db.requests[other].cycle == cycle ==> !Live(w.db.requests[other].status)
  }

  /** A request comes into being by its creation, exactly when no other of its cycle could still
      be paid out, and waits for review with nothing filled in; nothing is ever deleted. */
  lemma CreatedExactly(w: World, e: Event, id: string)
    ensures id in Step(w, e).db.requests <==>
      id in w.db.requests || (e.Create? && e.id == id && NoneLive(w, e.cycle))
    ensures id !in w.db.requests && id in Step(w, e).db.requests ==>
      Step(w, e).db.requests[id] == Row(e.cycle, PendingReview, None, None, None, None, 0, None)
  {
    hide SubmitTo, ReconcileAt, Reconcilable, Memory, Key, IsClosed, AfterApproval, AfterSubmission,
      AfterReconciliation, AfterReversal, AfterRejection;
  }

  /** At every moment of every run the status of a request is one that an event reported of
      it, if its review is over: none is paid but by a matching outcome, none reversed but by
      a reconciled reversal, none rejected but by a decision against it. */
  lemma {:induction false} StatusReported(w: World, events: seq<Event>, n: nat, id: string)
    requires Initial(w) && n <= |events| && id in At(w, events, n).db.requests
    ensures var status := At(w, events, n).db.requests[id].status;
      UnderReview(status) || GivenBefore(w, events, n, id, status)
    decreases n
  {
    hide At, Step, Consistent, Gives, RowOk;
    Unfold(w, events, n);
    if n == 0 {
      AtEnds(w, events);
    } else {
      var before := At(w, events, n - 1);
      AtNext(w, events, n - 1);
      Unfold(w, events, n - 1);
      RunKeeps(w, events[..n - 1]);
      if id in before.db.requests {
        StatusReported(w, events, n - 1, id);
        StatusGiven(before, events[n - 1], id);
        var status := At(w, events, n).db.requests[id].status;
        assert status != before.db.requests[id].status ==> GivenAt(w, events, n - 1, id, status);
      } else {
        CreatedExactly(before, events[n - 1], id);
      }
    }
  }

  /** The amounts an approval set. */
  predicate Carries(row: Row, e: Event) {
    e.Approve? && row.grossBase == e.grossBase && row.netCash == Some(e.netCash)
  }

  lemma AmountsStep(w: World, e: Event, id: string)
    requires Consistent(w) && id in w.db.requests
    ensures id in Step(w, e).db.requests
    ensures var row, after := w.db.requests[id], Step(w, e).db.requests[id];
      && (Approves(w, e, id) ==> after.status == Approved && Carries(after, e))
      && (!Approves(w, e, id) ==> after.grossBase == row.grossBase && after.netCash == row.netCash)
      && (!UnderReview(row.status) ==> !UnderReview(after.status) && !Approves(w, e, id))
      && (Underway(after.status) ==> Underway(row.status) || Approves(w, e, id))
  {
    hide Consistent, Step, Key;
    RowsExactly(w, e, id);
  }

  ghost predicate ApprovedAt(w: World, events: seq<Event>, k: int, id: string) {
    GivenAt(w, events, k, id, Approved)
  }

  /** No request is under review again once it was approved, and the amounts stay. */
  lemma {:induction false} ApprovalStays(w: World, events: seq<Event>, k: nat, n: nat, id: string)
    requires Initial(w) && k < n <= |events| && ApprovedAt(w, events, k, id)
    ensures id in At(w, events, n).db.requests
    ensures var row := At(w, events, n).db.requests[id]; !UnderReview(row.status) && Carries(row, events[k])
    decreases n
  {
    hide At, Step, Consistent, RowOk, Told;
    AtNext(w, events, n - 1);
    Unfold(w, events, n - 1);
    RunKeeps(w, events[..n - 1]);
    if n - 1 > k { ApprovalStays(w, events, k, n - 1, id); }
    AmountsStep(At(w, events, n - 1), events[n - 1], id);
  }

  /** In every run a request is approved at most once, and one that is past its review and not
      turned down was, with exactly the amounts it carries. */
  lemma AmountsAreApproved(w: World, events: seq<Event>, id: string)
    requires Initial(w) && id in Run(w, events).db.requests
    ensures forall i, j :: ApprovedAt(w, events, i, id) && ApprovedAt(w, events, j, id) ==> i == j
    ensures var row := Run(w, events).db.requests[id];
      Underway(row.status) ==> exists k :: ApprovedAt(w, events, k, id) && Carries(row, events[k])
  {
    hide At, Step, Consistent, RowOk;
    AtEnds(w, events);
    forall i, j | ApprovedAt(w, events, i, id) && ApprovedAt(w, events, j, id) ensures i == j {
      if i < j { ApprovalStays(w, events, i, j, id); }
      if j < i { ApprovalStays(w, events, j, i, id); }
    }
    if Underway(Run(w, events).db.requests[id].status) {
      WasApproved(w, events, |events|, id);
      var k :| ApprovedAt(w, events, k, id);
      ApprovalStays(w, events, k, |events|, id);
    }
  }

  lemma {:induction false} WasApproved(w: World, events: seq<Event>, n: nat, id: string)
    requires Initial(w) && n <= |events| && id in At(w, events, n).db.requests
    requires Underway(At(w, events, n).db.requests[id].status)
    ensures exists k :: k < n && ApprovedAt(w, events, k, id)
    decreases n
  {
    hide At, Step, Consistent, RowOk;
    Unfold(w, events, n);
    if n == 0 {
      AtEnds(w, events);
    } else {
      var before := At(w, events, n - 1);
      AtNext(w, events, n - 1);
      Unfold(w, events, n - 1);
      RunKeeps(w, events[..n - 1]);
      if id !in before.db.requests {
        CreatedExactly(before, events[n - 1], id);
      } else {
        AmountsStep(before, events[n - 1], id);
        if Approves(before, events[n - 1], id) {
          assert ApprovedAt(w, events, n - 1, id);
        } else {
          WasApproved(w, events, n - 1, id);
        }
      }
    }
  }

  /** So the ledger of a paid request holds one debit, of minus the gross base of the one
      approval that took effect on it, and its opposite once it is reversed. */
  lemma DebitIsApproved(w: World, events: seq<Event>, id: string)
    requires Initial(w) && id in Run(w, events).db.requests
    requires HasPaid(Run(w, events).db.requests[id].status)
    ensures exists k :: ApprovedAt(w, events, k, id) && Carries(Run(w, events).db.requests[id], events[k])
    ensures forall k :: ApprovedAt(w, events, k, id) ==>
      var debit := Entry(PayoutDebit, -events[k].grossBase, id);
      EntriesOf(Run(w, events).db.ledger, id) ==
        if Run(w, events).db.requests[id].status == Settled then [debit]
        else [debit, Entry(Reversal, events[k].grossBase, id)]
  {
    hide At, Step, Consistent, EntriesOf, Gives;
    LedgerFollowsStatus(w, events, id);
    AmountsAreApproved(w, events, id);
    forall k | ApprovedAt(w, events, k, id) ensures Carries(Run(w, events).db.requests[id], events[k]) {
    }
  }

  // ---- Calls and what providers remember ----------------------------------

  /** The call that an event begins, where its guard passes: a rejection of a request under
      review, a submission of an approved one with an amount under the key of its id, a
      settlement of one in process under what is on record, paid unless the operator says
      otherwise. */
  function Begun(w: World, e: Event): Option<(nat, Call)> {
    match e
    case StartReject(call, id) =>
      if id in w.db.requests && w.db.requests[id].status in {PendingReview, NeedsInformation}
      then Some((call, Rejecting(id))) else None
    case StartSubmit(call, id, name) =>
      if id in w.db.requests && w.db.requests[id].status == Approved && w.db.requests[id].netCash.Some?
      then Some((call, Submitting(id, name, Key(id)))) else None
    case StartSettle(call, id, outcome) =>
      if id in w.db.requests && w.db.requests[id].status == InProcess then
        match (w.db.requests[id].provider, w.db.requests[id].reference, w.db.requests[id].key)
        case (Some(name), Some(reference), Some(key)) =>
          Some((call, Settling(id, name, reference, key, if outcome == None then Paid else outcome.value)))
        case _ => None
      else None
    case _ => None
  }

  /** The call that an event moves on, and what becomes of it: a submission or a settlement is
      answered by its provider, a settlement whose provider answers an error ends, and a call
      that writes or dies ends. */
  function MovedOn(w: World, e: Event): Option<(nat, Option<Call>)> {
    match e
    case CallSubmit(call, process, now) =>
      if call !in w.calls || !w.calls[call].Submitting? then None
      else
        var c := w.calls[call];
        var s := SubmitTo(c.name, Memory(w, process, c.name), Submission(c.id, c.key), now).1;
        Some((call, Some(Answered(c.id, s))))
    case CallReconcile(call, process, now) =>
      if call !in w.calls || !w.calls[call].Settling? then None
      else
        var c := w.calls[call];
        var records := Memory(w, process, c.name);
        var r := ReconcileAt(c.name, Paid, records, c.reference, c.key, Some(c.outcome), now).1;
        Some((call, if r.Ok? then Some(Confirmed(c.id, r.value)) else None))
    case PersistReject(call) => if Ends(w, call) && w.calls[call].Rejecting? then Some((call, None)) else None
    case PersistSubmit(call) => if Ends(w, call) && w.calls[call].Answered? then Some((call, None)) else None
    case PersistReconcile(call, _) => if Ends(w, call) && w.calls[call].Confirmed? then Some((call, None)) else None
    case Crash(call) => Some((call, None))
    case _ => None
  }

  predicate Ends(w: World, call: nat) {
    call in w.calls && w.calls[call].id in w.db.requests
  }

  /** Calls begin, move on and end so, and in no other way. */
  lemma CallsExactly(w: World, e: Event, call: nat)
    ensures var after, begun, moved := Step(w, e).calls, Begun(w, e), MovedOn(w, e);
      if begun.Some? && begun.value.0 == call && call !in w.calls then
        call in after && after[call] == begun.value.1
      else if moved.Some? && moved.value.0 == call then
        (call in after <==> moved.value.1.Some?) && (call in after ==> Some(after[call]) == moved.value.1)
      else
        (call in after <==> call in w.calls) && (call in after ==> after[call] == w.calls[call])
  {
    hide SubmitTo, ReconcileAt, Memory, HasActive, Key, IsClosed, Ending, AfterApproval, AfterReversal;
  }

  /** A process remembers what its providers made of the calls it made since it started. */
  lemma MemoryExactly(w: World, e: Event, process: nat, name: ProviderName)
    ensures var before, after := Memory(w, process, name), Memory(Step(w, e), process, name);
      after ==
        match e
        case Restart(p) => if p == process then map[] else before
        case CallSubmit(call, p, now) =>
          if p == process && call in w.calls && w.calls[call].Submitting? && w.calls[call].name == name
          then SubmitTo(name, before, Submission(w.calls[call].id, w.calls[call].key), now).0 else before
        case CallReconcile(call, p, now) =>
          if p == process && call in w.calls && w.calls[call].Settling? && w.calls[call].name == name
          then ReconcileAt(name, Paid, before, w.calls[call].reference, w.calls[call].key,
                           Some(w.calls[call].outcome), now).0
          else before
        case _ => before
  {
    hide SubmitTo, ReconcileAt, HasActive, Key, IsClosed, Ending, AfterApproval, AfterReversal, Reconcilable;
  }
}
