/**
 Payout submission and reconciliation: the two payout providers, which keep their
 records in memory, and the payout requests and ledger entries of the database.
 */
module Payouts {
  import opened Options

  datatype Error =
    | RequestMissing
    | NotReady
    | KeyMismatch
    | SubmissionConflict
    | NotApproved
    | NotProcessing
    | ReconciliationConflict
    | AccountMismatch
    | NotPaid
    | DebitMissing
    | NotReviewable
    | CycleClosed
    | ConstraintViolated
    | RequestActive
    | ReferenceUnknown
    | OutcomeMissing

  datatype Result<T> = Ok(value: T) | Err(error: Error)

  // ---- The providers -----------------------------------------------------

  datatype ProviderName = Mock | Manual

  datatype ProviderStatus = Pending | Processing | Paid | Failed | Returned

  type Outcome = s: ProviderStatus | s == Paid || s == Failed || s == Returned witness Paid

  datatype Record = Record(reference: string, key: string, status: ProviderStatus, observedAt: int)

  type Records = map<string, Record>

  datatype Submission = Submission(requestId: string, key: string)

  datatype Submitted =
    Submitted(provider: ProviderName, reference: string, key: string, status: ProviderStatus, submittedAt: int)

  datatype Observed =
    Observed(provider: ProviderName, reference: string, key: string, status: ProviderStatus, observedAt: int)

  datatype Reconciled = Reconciled(observed: Observed, reconciledAt: int)

  function Key(requestId: string): string {
    "wariba-payout:" + requestId
  }

  /** The status a provider gives a new submission. */
  function FirstStatus(name: ProviderName): ProviderStatus {
    if name.Mock? then Processing else Pending
  }

  function SubmitTo(name: ProviderName, records: Records, input: Submission, now: int): (Records, Submitted) {
    if input.key in records then
      var r := records[input.key];
      (records, Submitted(name, r.reference, r.key, r.status, r.observedAt))
    else
      (records[input.key := Record(Key(input.requestId), input.key, FirstStatus(name), now)],
       Submitted(name, Key(input.requestId), input.key, FirstStatus(name), now))
  }

  function StatusAt(name: ProviderName, records: Records, reference: string, key: string, now: int): Result<Observed> {
    if key in records && records[key].reference != reference then Err(ReferenceUnknown)
    else if key in records then
      var r := records[key];
      Ok(Observed(name, reference, if name.Mock? then r.key else key, r.status, r.observedAt))
    else if name.Mock? && reference != key then Err(ReferenceUnknown)
    else Ok(Observed(name, reference, key, FirstStatus(name), now))
  }

  /** `settles` is what the mock is configured to answer; `outcome` is the operator's. */
  function ReconcileAt(name: ProviderName, settles: Outcome, records: Records, reference: string, key: string,
                       outcome: Option<Outcome>, at: int): (Records, Result<Reconciled>)
  {
    if name.Manual? && outcome.None? then (records, Err(OutcomeMissing))
    else
      match StatusAt(name, records, reference, key, at)
      case Err(e) => (records, Err(e))
      case Ok(o) =>
        var status: ProviderStatus := if name.Mock? then settles else outcome.value;
        (records[key := Record(reference, o.key, status, at)],
         Ok(Reconciled(Observed(name, reference, o.key, status, at), at)))
  }

  /** Records are filed under the key they carry. */
  ghost predicate Keyed(records: Records) {
    forall k :: k in records ==> records[k].key == k
  }

  /** A record survives or it does not: the answer to a reconciliation is the same,
      exactly when the record's reference is the one asked for and, for the mock,
      that reference is the key. */
  lemma ReconcileWithoutRecord(name: ProviderName, settles: Outcome, records: Records, reference: string, key: string,
                               outcome: Option<Outcome>, at: int)
    requires key in records && Keyed(records)
    requires name.Manual? ==> outcome.Some?
    ensures var kept := ReconcileAt(name, settles, records, reference, key, outcome, at).1;
      var lost := ReconcileAt(name, settles, records - {key}, reference, key, outcome, at).1;
      && (kept.Ok? <==> records[key].reference == reference)
      && (lost.Ok? <==> name.Manual? || reference == key)
      && (kept.Ok? && lost.Ok? ==> kept == lost)
      && (kept == lost <==> ((records[key].reference == reference) <==> (name.Manual? || reference == key)))
  {
  }

  class MockProvider {
    const settles: Outcome
    var records: Records

    constructor (settles: Outcome)
      ensures this.settles == settles && records == map[]
    {
      this.settles := settles;
      records := map[];
    }

    method Submit(input: Submission, now: int) returns (r: Submitted)
      modifies this
      ensures (records, r) == SubmitTo(Mock, old(records), input, now)
    {
      if input.key in records {
        var existing := records[input.key];
        return Submitted(Mock, existing.reference, existing.key, existing.status, existing.observedAt);
      }
      var record := Record(Key(input.requestId), input.key, Processing, now);
      records := records[input.key := record];
      return Submitted(Mock, record.reference, record.key, record.status, now);
    }

    method GetStatus(reference: string, key: string, now: int) returns (r: Result<Observed>)
      ensures r == StatusAt(Mock, records, reference, key, now)
    {
      if key !in records && reference == key {
        return Ok(Observed(Mock, reference, key, Processing, now));
      }
      if key !in records || records[key].reference != reference {
        return Err(ReferenceUnknown);
      }
      var record := records[key];
      return Ok(Observed(Mock, record.reference, record.key, record.status, record.observedAt));
    }

    method Reconcile(reference: string, key: string, outcome: Option<Outcome>, at: int) returns (r: Result<Reconciled>)
      modifies this
      ensures (records, r) == ReconcileAt(Mock, settles, old(records), reference, key, outcome, at)
    {
      var status := GetStatus(reference, key, at);
      if status.Err? { return Err(status.error); }
      var o := status.value;
      records := records[key := Record(o.reference, o.key, settles, at)];
      return Ok(Reconciled(o.(status := settles, observedAt := at), at));
    }
  }

  class ManualProvider {
    var records: Records

    constructor ()
      ensures records == map[]
    {
      records := map[];
    }

    method Submit(input: Submission, now: int) returns (r: Submitted)
      modifies this
      ensures (records, r) == SubmitTo(Manual, old(records), input, now)
    {
      if input.key in records {
        var existing := records[input.key];
        return Submitted(Manual, existing.reference, existing.key, existing.status, existing.observedAt);
      }
      var record := Record(Key(input.requestId), input.key, Pending, now);
      records := records[input.key := record];
      return Submitted(Manual, record.reference, record.key, record.status, now);
    }

    method GetStatus(reference: string, key: string, now: int) returns (r: Result<Observed>)
      ensures r == StatusAt(Manual, records, reference, key, now)
    {
      if key in records && records[key].reference != reference {
        return Err(ReferenceUnknown);
      }
      var observedAt := if key in records then records[key].observedAt else now;
      var status := if key in records then records[key].status else Pending;
      return Ok(Observed(Manual, reference, key, status, observedAt));
    }

    method Reconcile(reference: string, key: string, outcome: Option<Outcome>, at: int) returns (r: Result<Reconciled>)
      modifies this
      ensures (records, r) == ReconcileAt(Manual, Paid, old(records), reference, key, outcome, at)
    {
      if outcome.None? { return Err(OutcomeMissing); }
      var status := GetStatus(reference, key, at);
      if status.Err? { return Err(status.error); }
      var record := Record(status.value.reference, status.value.key, outcome.value, at);
      records := records[key := record];
      return Ok(Reconciled(Observed(Manual, record.reference, record.key, record.status, record.observedAt), at));
    }
  }

  // ---- The database ------------------------------------------------------

  datatype RequestStatus =
    | PendingReview
    | NeedsInformation
    | Approved
    | Rejected
    | InProcess
    | Settled
    | Unpaid
    | Reversed

  datatype Row = Row(
    cycle: string,
    status: RequestStatus,
    provider: Option<ProviderName>,
    reference: Option<string>,
    key: Option<string>,
    providerStatus: Option<ProviderStatus>,
    grossBase: int,
    netCash: Option<int>)

  datatype EntryKind = PayoutDebit | Reversal

  datatype Entry = Entry(kind: EntryKind, amount: int, requestId: string)

  /** The payout requests, the performance cycles that are closed, and the ledger.  A
      closed cycle keeps its closing time, so the check constraint on cycles lets no
      update give it another status. */
  datatype Tables = Tables(requests: map<string, Row>, closed: set<string>, ledger: seq<Entry>)

  /** What a transaction does to one request: its new row, the entries it books, and
      whether it closes the cycle. */
  datatype Change = Change(row: Row, entries: seq<Entry>, closes: bool)

  function Commit(t: Tables, id: string, result: Result<Change>): Tables {
    match result
    case Err(_) => t
    case Ok(c) =>
      Tables(t.requests[id := c.row], if c.closes then t.closed + {c.row.cycle} else t.closed, t.ledger + c.entries)
  }

  function Answer(result: Result<Change>): Result<RequestStatus> {
    match result
    case Err(e) => Err(e)
    case Ok(c) => Ok(c.row.status)
  }

  /** A change to the row alone. */
  function Only(row: Row): Change {
    Change(row, [], false)
  }

  predicate IsClosed(t: Tables, id: string)
    requires id in t.requests
  {
    t.requests[id].cycle in t.closed
  }

  /** The statuses a request has once a submission of it is on record. */
  predicate Sent(status: RequestStatus) {
    status == InProcess || status == Settled || status == Unpaid || status == Reversed
  }

  predicate UnderReview(status: RequestStatus) {
    status == PendingReview || status == NeedsInformation
  }

  /** The statuses the unique index allows one request of a cycle to have at a time. */
  predicate Active(status: RequestStatus) {
    UnderReview(status) || status == Approved || status == InProcess
  }

  ghost predicate HasActive(t: Tables, cycle: string) {
    exists id :: id in t.requests && t.requests[id].cycle == cycle && Active(t.requests[id].status)
  }

  function NewRequest(cycle: string): Row {
    Row(cycle, PendingReview, None, None, None, None, 0, None)
  }

  function AfterApproval(row: Row, eligible: bool, grossBase: int, netCash: int, closed: bool): Result<Change> {
    if row.status != PendingReview then Err(NotReviewable)
    else if eligible then Ok(Only(row.(status := Approved, grossBase := grossBase, netCash := Some(netCash))))
    else if closed then Err(CycleClosed)
    else Ok(Only(row.(status := Rejected)))
  }

  /** The write of a rejection.  It does not look at the status: a reversed row is saved
      from it by the constraint on its reversal fields, and any row of a closed cycle
      because the same transaction would reopen the cycle. */
  function AfterRejection(row: Row, closed: bool): Result<Change> {
    if row.status == Reversed then Err(ConstraintViolated)
    else if closed then Err(CycleClosed)
    else Ok(Only(row.(status := Rejected)))
  }

  function AfterSubmission(row: Row, id: string, s: Submitted): Result<Change> {
    if s.key != Key(id) then Err(KeyMismatch)
    else if row.key.Some? then
      if row.key != Some(s.key) || row.provider != Some(s.provider) || row.reference != Some(s.reference)
      then Err(SubmissionConflict) else Ok(Only(row))
    else if row.status != Approved then Err(NotApproved)
    else Ok(Only(row.(status := InProcess, provider := Some(s.provider), reference := Some(s.reference),
                      key := Some(s.key), providerStatus := Some(s.status))))
  }

  function AfterReconciliation(row: Row, id: string, r: Reconciled, matches: bool, closed: bool): Result<Change> {
    var o := r.observed;
    if row.status == Settled || row.status == Unpaid then Ok(Only(row))
    else if row.status != InProcess then Err(NotProcessing)
    else if row.provider != Some(o.provider) || row.reference != Some(o.reference) || row.key != Some(o.key)
    then Err(ReconciliationConflict)
    else if o.status == Paid then
      if !matches then Err(AccountMismatch)
      else if closed then Err(CycleClosed)
      else Ok(Change(row.(status := Settled, providerStatus := Some(Paid)),
                     [Entry(PayoutDebit, -row.grossBase, id)], true))
    else if o.status == Failed || o.status == Returned then
      if closed then Err(CycleClosed)
      else Ok(Only(row.(status := Unpaid, providerStatus := Some(o.status))))
    else
      Ok(Only(row.(providerStatus := Some(o.status))))
  }

  /** The first debit booked for a request. */
  function Debit(ledger: seq<Entry>, id: string): Option<Entry> {
    if ledger == [] then None
    else if ledger[0].kind.PayoutDebit? && ledger[0].requestId == id then Some(ledger[0])
    else Debit(ledger[1..], id)
  }

  function AfterReversal(row: Row, id: string, ledger: seq<Entry>, before: bool, after: bool): Result<Change> {
    if row.status == Reversed then Ok(Only(row))
    else if row.status != Settled then Err(NotPaid)
    else if !before then Err(AccountMismatch)
    else
      match Debit(ledger, id)
      case None => Err(DebitMissing)
      case Some(debit) =>
        if !after then Err(AccountMismatch)
        else Ok(Change(row.(status := Reversed), [Entry(Reversal, -debit.amount, id)], false))
  }

  class Database {
    var requests: map<string, Row>
    var closed: set<string>
    var ledger: seq<Entry>

    function Snapshot(): Tables
      reads this
    {
      Tables(requests, closed, ledger)
    }

    constructor ()
      ensures Snapshot() == Tables(map[], {}, [])
    {
      requests, closed, ledger := map[], {}, [];
    }

    method Rollback(saved: Tables)
      modifies this
      ensures Snapshot() == saved
    {
      requests, closed, ledger := saved.requests, saved.closed, saved.ledger;
    }

    /** The insert of a new request, on a cycle that was found open some time before. */
    method InsertRequest(id: string, cycle: string) returns (r: Result<RequestStatus>)
      requires id !in requests
      modifies this`requests
      ensures HasActive(old(Snapshot()), cycle) ==> r == Err(RequestActive) && Snapshot() == old(Snapshot())
      ensures !HasActive(old(Snapshot()), cycle) ==>
        r == Ok(PendingReview) && Snapshot() == Commit(old(Snapshot()), id, Ok(Only(NewRequest(cycle))))
    {
      var active := set other | other in requests && requests[other].cycle == cycle && Active(requests[other].status);
      if active != {} {
        Pick(active);
        return Err(RequestActive);
      }
      assert forall other :: other in requests && requests[other].cycle == cycle ==>
        Active(requests[other].status) ==> other in active;
      requests := requests[id := Row(cycle, PendingReview, None, None, None, None, 0, None)];
      return Ok(PendingReview);
    }

    /** Closing a cycle that is closed already throws. */
    method CloseCycle(cycle: string) returns (done: bool)
      modifies this`closed
      ensures done <==> cycle !in old(closed)
      ensures closed == old(closed) + {cycle}
    {
      if cycle in closed {
        assert closed == closed + {cycle};
        return false;
      }
      closed := closed + {cycle};
      return true;
    }

    method Approve(id: string, eligible: bool, grossBase: int, netCash: int) returns (r: Result<RequestStatus>)
      modifies this
      ensures id !in old(requests) ==> r == Err(NotReviewable) && Snapshot() == old(Snapshot())
      ensures id in old(requests) ==>
        && var result := AfterApproval(old(requests)[id], eligible, grossBase, netCash, IsClosed(old(Snapshot()), id));
        && r == Answer(result) && Snapshot() == Commit(old(Snapshot()), id, result)
    {
      if id !in requests || requests[id].status != PendingReview { return Err(NotReviewable); }
      var request, saved := requests[id], Snapshot();
      if !eligible {
        requests := requests[id := request.(status := Rejected)];
        if request.cycle in closed {
          Rollback(saved);
          return Err(CycleClosed);
        }
        return Ok(Rejected);
      }
      requests := requests[id := request.(status := Approved, grossBase := grossBase, netCash := Some(netCash))];
      return Ok(Approved);
    }

    /** The first half of a rejection: an unlocked read of the status. */
    method ReadForRejection(id: string) returns (open: bool)
      ensures open <==> id in requests && UnderReview(requests[id].status)
    {
      return id in requests && (requests[id].status == PendingReview || requests[id].status == NeedsInformation);
    }

    /** The second half: the write, whatever the status is by now. */
    method WriteRejection(id: string) returns (r: Result<RequestStatus>)
      requires id in requests
      modifies this
      ensures var result := AfterRejection(old(requests)[id], IsClosed(old(Snapshot()), id));
        r == Answer(result) && Snapshot() == Commit(old(Snapshot()), id, result)
    {
      var request, saved := requests[id], Snapshot();
      if request.status == Reversed { return Err(ConstraintViolated); }
      requests := requests[id := request.(status := Rejected)];
      if request.cycle in closed {
        Rollback(saved);
        return Err(CycleClosed);
      }
      return Ok(Rejected);
    }

    /** The submission recorded in one transaction: committed, or nothing changed. */
    method RecordSubmission(id: string, s: Submitted) returns (r: Result<RequestStatus>)
      modifies this`requests
      ensures id !in old(requests) ==> r == Err(RequestMissing) && Snapshot() == old(Snapshot())
      ensures id in old(requests) ==>
        && var result := AfterSubmission(old(requests)[id], id, s);
        && r == Answer(result) && Snapshot() == Commit(old(Snapshot()), id, result)
    {
      if id !in requests { return Err(RequestMissing); }
      var request := requests[id];
      if s.key != "wariba-payout:" + id { return Err(KeyMismatch); }
      if request.key.Some? {
        if request.key != Some(s.key) || request.provider != Some(s.provider)
           || request.reference != Some(s.reference) {
          return Err(SubmissionConflict);
        }
        return Ok(request.status);
      }
      if request.status != Approved { return Err(NotApproved); }
      requests := requests[id := request.(
        status := InProcess, provider := Some(s.provider), reference := Some(s.reference),
        key := Some(s.key), providerStatus := Some(s.status))];
      return Ok(InProcess);
    }

    /** What settlement needs of a request before it looks at the account. */
    ghost predicate Settleable(row: Row) {
      row.status == InProcess && row.provider.Some? && row.reference.Some? && row.key.Some?
      && row.providerStatus == Some(Paid)
    }

    /** Settlement proper, within the transaction of a reconciliation that reported
        the payout paid: the status flips, the debit is booked and the cycle closes
        together, or it throws. */
    method Settle(id: string, matches: bool) returns (r: Result<RequestStatus>)
      requires id in requests
      modifies this
      ensures var row := old(requests)[id];
        if row.status == Settled then
          r == Ok(Settled) && Snapshot() == old(Snapshot())
        else if Settleable(row) && matches && row.cycle !in old(closed) then
          && r == Ok(Settled)
          && requests == old(requests)[id := row.(status := Settled)]
          && closed == old(closed) + {row.cycle}
          && ledger == old(ledger) + [Entry(PayoutDebit, -row.grossBase, id)]
        else r.Err?
      ensures Settleable(old(requests)[id]) && !matches ==> r == Err(AccountMismatch)
      ensures Settleable(old(requests)[id]) && matches && old(requests)[id].cycle in old(closed) ==>
        r == Err(CycleClosed)
    {
      var request := requests[id];
      if request.status == Settled { return Ok(Settled); }
      if request.status != InProcess { return Err(NotProcessing); }
      if request.provider.None? || request.reference.None? || request.key.None?
         || request.providerStatus != Some(Paid) {
        return Err(NotReady);
      }
      if !matches { return Err(AccountMismatch); }
      requests := requests[id := request.(status := Settled)];
      ledger := ledger + [Entry(PayoutDebit, -request.grossBase, id)];
      var done := CloseCycle(request.cycle);
      return if done then Ok(Settled) else Err(CycleClosed);
    }

    method RecordReconciliation(id: string, r: Reconciled, matches: bool) returns (status: Result<RequestStatus>)
      modifies this
      ensures id !in old(requests) ==> status == Err(RequestMissing) && Snapshot() == old(Snapshot())
      ensures id in old(requests) ==>
        && var result := AfterReconciliation(old(requests)[id], id, r, matches, IsClosed(old(Snapshot()), id));
        && status == Answer(result) && Snapshot() == Commit(old(Snapshot()), id, result)
    {
      if id !in requests { return Err(RequestMissing); }
      var request, o, saved := requests[id], r.observed, Snapshot();
      if request.status == Settled || request.status == Unpaid {
        return Ok(request.status);
      }
      if request.status != InProcess { return Err(NotProcessing); }
      if request.provider != Some(o.provider) || request.reference != Some(o.reference)
         || request.key != Some(o.key) {
        return Err(ReconciliationConflict);
      }
      requests := requests[id := request.(providerStatus := Some(o.status))];
      if o.status == Paid {
        status := Settle(id, matches);
        if status.Err? { Rollback(saved); }
        return;
      }
      if o.status == Failed || o.status == Returned {
        requests := requests[id := requests[id].(status := Unpaid)];
        if request.cycle in closed {
          Rollback(saved);
          return Err(CycleClosed);
        }
        return Ok(Unpaid);
      }
      return Ok(InProcess);
    }

    method Reverse(id: string, beforeMatches: bool, afterMatches: bool) returns (status: Result<RequestStatus>)
      modifies this
      ensures id !in old(requests) ==> status == Err(RequestMissing) && Snapshot() == old(Snapshot())
      ensures id in old(requests) ==>
        && var result := AfterReversal(old(requests)[id], id, old(ledger), beforeMatches, afterMatches);
        && status == Answer(result) && Snapshot() == Commit(old(Snapshot()), id, result)
    {
      if id !in requests { return Err(RequestMissing); }
      var request, saved := requests[id], Snapshot();
      if request.status == Reversed {
        return Ok(Reversed);
      }
      if request.status != Settled { return Err(NotPaid); }
      if !beforeMatches { return Err(AccountMismatch); }
      var debit := FindDebit(id);
      if debit.None? { return Err(DebitMissing); }
      ledger := ledger + [Entry(Reversal, -debit.value.amount, id)];
      requests := requests[id := request.(status := Reversed)];
      if !afterMatches {
        Rollback(saved);
        return Err(AccountMismatch);
      }
      return Ok(Reversed);
    }

    method FindDebit(id: string) returns (debit: Option<Entry>)
      ensures debit == Debit(ledger, id)
    {
      var i := 0;
      while i < |ledger|
        invariant 0 <= i <= |ledger|
        invariant Debit(ledger[i..], id) == Debit(ledger, id)
      {
        if ledger[i].kind.PayoutDebit? && ledger[i].requestId == id {
          return Some(ledger[i]);
        }
        assert ledger[i..][1..] == ledger[i + 1..];
        i := i + 1;
      }
      return None;
    }

    /** One call of the submission operation that nothing interrupts. */
    method SubmitPayoutRequest(mock: MockProvider, manual: ManualProvider, id: string, name: ProviderName, now: int)
      returns (r: Result<RequestStatus>)
      modifies this`requests, mock, manual
      ensures id !in old(requests) ==> r == Err(RequestMissing)
      ensures id in old(requests) && Sent(old(requests)[id].status) ==> r == Ok(old(requests)[id].status)
      ensures id in old(requests) && !Sent(old(requests)[id].status) && !Submittable(old(requests)[id]) ==>
        r == Err(NotReady)
      ensures !(id in old(requests) && Submittable(old(requests)[id])) ==>
        Snapshot() == old(Snapshot()) && mock.records == old(mock.records) && manual.records == old(manual.records)
      ensures id in old(requests) && Submittable(old(requests)[id]) ==>
        && var records := if name.Mock? then old(mock.records) else old(manual.records);
        && var (kept, s) := SubmitTo(name, records, Submission(id, Key(id)), now);
        && var result := AfterSubmission(old(requests)[id], id, s);
        && mock.records == (if name.Mock? then kept else old(mock.records))
        && manual.records == (if name.Manual? then kept else old(manual.records))
        && r == Answer(result) && Snapshot() == Commit(old(Snapshot()), id, result)
    {
      if id !in requests { return Err(RequestMissing); }
      var item := requests[id];
      if item.status == InProcess || item.status == Settled || item.status == Unpaid || item.status == Reversed {
        return Ok(item.status);
      }
      if item.status != Approved || item.netCash.None? { return Err(NotReady); }
      var submitted: Submitted;
      if name.Mock? {
        submitted := mock.Submit(Submission(id, "wariba-payout:" + id), now);
      } else {
        submitted := manual.Submit(Submission(id, "wariba-payout:" + id), now);
      }
      r := RecordSubmission(id, submitted);
    }

    /** One call of the settlement operation that nothing interrupts. */
    method SettlePayoutRequest(mock: MockProvider, manual: ManualProvider, id: string, outcome: Option<Outcome>,
                               matches: bool, now: int)
      returns (r: Result<RequestStatus>)
      modifies this, mock, manual
      ensures id !in old(requests) ==> r == Err(RequestMissing) && Snapshot() == old(Snapshot())
      ensures id in old(requests) && !Reconcilable(old(requests)[id]) ==>
        && r == (if old(requests)[id].status in {Settled, Unpaid, Reversed}
                 then Ok(old(requests)[id].status) else Err(NotReady))
        && Snapshot() == old(Snapshot())
        && mock.records == old(mock.records) && manual.records == old(manual.records)
      ensures id in old(requests) && Reconcilable(old(requests)[id]) ==>
        && var row := old(requests)[id];
        && var records := if row.provider.value.Mock? then old(mock.records) else old(manual.records);
        && var answer := ReconcileAt(row.provider.value, mock.settles, records, row.reference.value, row.key.value,
                                     Some(Chosen(outcome)), now).1;
        && match answer
           case Err(e) => r == Err(e) && Snapshot() == old(Snapshot())
           case Ok(reconciled) =>
             && var result := AfterReconciliation(row, id, reconciled, matches, IsClosed(old(Snapshot()), id));
             && r == Answer(result) && Snapshot() == Commit(old(Snapshot()), id, result)
    {
      if id !in requests { return Err(RequestMissing); }
      var item := requests[id];
      if item.status == Settled || item.status == Unpaid || item.status == Reversed {
        return Ok(item.status);
      }
      if item.status != InProcess || item.provider.None? || item.reference.None? || item.key.None? {
        return Err(NotReady);
      }
      var answer: Result<Reconciled>;
      var chosen := if outcome.Some? then outcome.value else Paid;
      if item.provider.value.Mock? {
        answer := mock.Reconcile(item.reference.value, item.key.value, Some(chosen), now);
      } else {
        answer := manual.Reconcile(item.reference.value, item.key.value, Some(chosen), now);
      }
      if answer.Err? { return Err(answer.error); }
      r := RecordReconciliation(id, answer.value, matches);
    }
  }

  lemma Pick(ids: set<string>)
    requires ids != {}
    ensures exists id :: id in ids
  {
  }

  /** A request that can be handed to a provider. */
  predicate Submittable(row: Row) {
    row.status == Approved && row.netCash.Some?
  }

  /** A request whose provider can be asked to reconcile it. */
  predicate Reconcilable(row: Row) {
    row.status == InProcess && row.provider.Some? && row.reference.Some? && row.key.Some?
  }

  /** An operator who says nothing means paid. */
  function Chosen(outcome: Option<Outcome>): Outcome {
    if outcome.Some? then outcome.value else Paid
  }
}
