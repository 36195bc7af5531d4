/** What the payout providers remember, and which requests the database turns away. */
module PayoutProviders {
  import opened Options
  import opened Payouts

  /** No two requests share a key. */
  lemma KeysDiffer(a: string, b: string)
    ensures Key(a) == Key(b) <==> a == b
  {
    var prefix := "wariba-payout:";
    assert Key(a)[|prefix|..] == a && Key(b)[|prefix|..] == b;
  }

  /** All records but that of one key are as they were. */
  ghost predicate OthersStay(before: Records, after: Records, key: string) {
    && (forall k :: k in before && k != key ==> k in after && after[k] == before[k])
    && (forall k :: k in after && k != key ==> k in before)
  }

  /** A submission is answered and remembered: asked for its status under the reference it was
      given, the provider answers what it answered then, under any other it answers an error,
      and the same key submitted again gets the same answer and changes nothing. */
  lemma SubmissionRemembered(name: ProviderName, records: Records, input: Submission, now: int, later: int,
                             other: string)
    requires Keyed(records)
    ensures var (after, s) := SubmitTo(name, records, input, now);
      && s.provider == name && s.key == input.key
      && (input.key !in records ==>
            s.reference == Key(input.requestId) && s.submittedAt == now
            && s.status == (if name.Mock? then Processing else Pending))
      && (input.key in records ==> after == records)
      && StatusAt(name, after, s.reference, input.key, later)
         == Ok(Observed(name, s.reference, input.key, s.status, s.submittedAt))
      && (other != s.reference ==> StatusAt(name, after, other, input.key, later) == Err(ReferenceUnknown))
      && SubmitTo(name, after, Submission(other, input.key), later) == (after, s)
      && OthersStay(records, after, input.key) && Keyed(after)
  {
  }

  /** A provider that has no record of a key stands by what it would have answered: the mock
      for the reference that is the key, the manual one for any. */
  lemma LostRecord(name: ProviderName, records: Records, reference: string, key: string, now: int)
    requires key !in records
    ensures StatusAt(name, records, reference, key, now) ==
      if name.Manual? then Ok(Observed(Manual, reference, key, Pending, now))
      else if reference == key then Ok(Observed(Mock, reference, key, Processing, now))
      else Err(ReferenceUnknown)
  {
  }

  /** A reconciliation takes effect exactly when the status can be asked for and, with the
      manual provider, the operator names the outcome.  From then on it is the status, and the
      answer to a repeated submission. */
  lemma OutcomeRemembered(name: ProviderName, settles: Outcome, records: Records, reference: string, key: string,
                          outcome: Option<Outcome>, at: int, later: int)
    requires Keyed(records)
    ensures var (after, r) := ReconcileAt(name, settles, records, reference, key, outcome, at);
      && (r.Ok? <==> (name.Manual? ==> outcome.Some?) && StatusAt(name, records, reference, key, at).Ok?)
      && (r.Err? ==> after == records
                     && r.error == if name.Manual? && outcome.None? then OutcomeMissing else ReferenceUnknown)
      && (r.Ok? ==>
            var status: ProviderStatus := if name.Mock? then settles else outcome.value;
            && r.value == Reconciled(Observed(name, reference, key, status, at), at)
            && StatusAt(name, after, reference, key, later) == Ok(r.value.observed)
            && SubmitTo(name, after, Submission(reference, key), later)
               == (after, Submitted(name, reference, key, status, at)))
      && OthersStay(records, after, key) && Keyed(after)
  {
  }

  // ---- Which requests are turned away -------------------------------------

  /** A review is over once it was decided; a request that needs information is still under it. */
  lemma ReviewExactly(status: RequestStatus)
    ensures UnderReview(status) <==> status in {PendingReview, NeedsInformation}
    ensures Active(status) <==> status !in {Rejected, Settled, Unpaid, Reversed}
    ensures Sent(status) <==> status in {InProcess, Settled, Unpaid, Reversed}
  {
  }

  /** An approval is turned away exactly when the request does not wait for it, or would be
      rejected by it on a closed cycle. */
  lemma ApprovalRefused(row: Row, eligible: bool, grossBase: int, netCash: int, closed: bool, e: Error)
    ensures AfterApproval(row, eligible, grossBase, netCash, closed) == Err(e) <==>
      || (e == NotReviewable && row.status != PendingReview)
      || (e == CycleClosed && row.status == PendingReview && !eligible && closed)
  {
  }

  lemma RejectionRefused(row: Row, closed: bool, e: Error)
    ensures AfterRejection(row, closed) == Err(e) <==>
      || (e == ConstraintViolated && row.status == Reversed)
      || (e == CycleClosed && row.status != Reversed && closed)
  {
  }

  /** The row carries this provider, reference and key. */
  predicate Filed(row: Row, provider: ProviderName, reference: string, key: string) {
    row.provider == Some(provider) && row.reference == Some(reference) && row.key == Some(key)
  }

  /** An answer is turned away exactly when it is for another key, contradicts the one on
      record, or is the first and finds the request not approved. */
  lemma SubmissionRefused(row: Row, id: string, s: Submitted, e: Error)
    ensures AfterSubmission(row, id, s) == Err(e) <==>
      || (e == KeyMismatch && s.key != Key(id))
      || (e == SubmissionConflict && s.key == Key(id) && row.key.Some? && !Filed(row, s.provider, s.reference, s.key))
      || (e == NotApproved && s.key == Key(id) && row.key.None? && row.status != Approved)
  {
  }

  /** An answer that is taken is on record afterwards, under its own provider, reference and
      key; the first one puts the request in process, and a repeated one changes nothing. */
  lemma AnswerFiled(row: Row, id: string, s: Submitted)
    requires AfterSubmission(row, id, s).Ok?
    ensures var c := AfterSubmission(row, id, s).value;
      && Filed(c.row, s.provider, s.reference, s.key) && c == Only(c.row)
      && c.row == if row.key.Some? then row else Row(row.cycle, InProcess, c.row.provider, c.row.reference, c.row.key,
                                                     Some(s.status), row.grossBase, row.netCash)
  {
  }

  /** An outcome that is taken settles or fails the request once and for all; one that says
      the payout is still on its way is noted, and changes nothing else. */
  lemma OutcomeTaken(row: Row, id: string, r: Reconciled, matches: bool, closed: bool)
    requires AfterReconciliation(row, id, r, matches, closed).Ok?
    ensures var c, status := AfterReconciliation(row, id, r, matches, closed).value, r.observed.status;
      if row.status != InProcess then c == Only(row)
      else
        && c.row == row.(status := c.row.status, providerStatus := Some(status))
        && c.row.status == (match status
                            case Paid => Settled
                            case Failed => Unpaid
                            case Returned => Unpaid
                            case _ => InProcess)
        && c.entries == (if status == Paid then [Entry(PayoutDebit, -row.grossBase, id)] else [])
        && (c.closes <==> status == Paid)
  {
  }

  /** An outcome is turned away exactly when nothing is in process, when it is another
      submission's, when the account does not reconcile, or when it would close a closed
      cycle or write to it. */
  lemma OutcomeRefused(row: Row, id: string, r: Reconciled, matches: bool, closed: bool, e: Error)
    ensures var o := r.observed; var filed := Filed(row, o.provider, o.reference, o.key);
      AfterReconciliation(row, id, r, matches, closed) == Err(e) <==>
      || (e == NotProcessing && row.status !in {InProcess, Settled, Unpaid})
      || (e == ReconciliationConflict && row.status == InProcess && !filed)
      || (e == AccountMismatch && row.status == InProcess && filed && o.status == Paid && !matches)
      || (e == CycleClosed && row.status == InProcess && filed && closed
          && (o.status in {Failed, Returned} || (o.status == Paid && matches)))
  {
  }

  /** A reversal is turned away exactly when nothing was paid, when the account does not
      reconcile before it or after it, or when there is no debit to reverse. */
  lemma ReversalRefused(row: Row, id: string, ledger: seq<Entry>, before: bool, after: bool, e: Error)
    ensures AfterReversal(row, id, ledger, before, after) == Err(e) <==>
      || (e == NotPaid && row.status !in {Settled, Reversed})
      || (e == AccountMismatch && row.status == Settled && (!before || (Debit(ledger, id).Some? && !after)))
      || (e == DebitMissing && row.status == Settled && before && Debit(ledger, id).None?)
  {
  }

  /** Only an approved request with an amount is handed to a provider, and only one in
      process, with its provider, reference and key, is asked about. */
  lemma GuardsExactly(row: Row, provider: ProviderName, reference: string, key: string)
    ensures Submittable(row) <==> row.status == Approved && row.netCash != None
    ensures Filed(row, provider, reference, key) ==> (Reconcilable(row) <==> row.status == InProcess)
    ensures Reconcilable(row) ==> row.provider != None && row.reference != None && row.key != None
    ensures Chosen(None) == Paid && forall outcome: Outcome :: Chosen(Some(outcome)) == outcome
  {
  }
}
