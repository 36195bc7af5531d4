/**
 What holds over every run of payouts: calls interleave where they await the database
 or the provider, any of them may die at any of those points, and a process that
 restarts forgets what its providers remembered.
 */
module PayoutRuns {
  import opened Options
  import opened Payouts

  /** A call between two of its awaits. */
  datatype Call =
    | Submitting(id: string, name: ProviderName, key: string)
    | Answered(id: string, submitted: Submitted)
    | Settling(id: string, name: ProviderName, reference: string, key: string, outcome: Outcome)
    | Confirmed(id: string, reconciled: Reconciled)
    | Rejecting(id: string)

  /** A submission a provider was asked for, and its answer. */
  datatype Asked = Asked(id: string, name: ProviderName, key: string, answer: Submitted)

  datatype World = World(
    db: Tables,
    memory: map<(nat, ProviderName), Records>,
    calls: map<nat, Call>,
    asked: seq<Asked>)

  datatype Event =
    | Create(id: string, cycle: string)
    | Approve(id: string, eligible: bool, grossBase: int, netCash: int)
    | StartReject(call: nat, id: string)
    | PersistReject(call: nat)
    | StartSubmit(call: nat, id: string, name: ProviderName)
    | CallSubmit(call: nat, process: nat, now: int)
    | PersistSubmit(call: nat)
    | StartSettle(call: nat, id: string, outcome: Option<Outcome>)
    | CallReconcile(call: nat, process: nat, now: int)
    | PersistReconcile(call: nat, matches: bool)
    | Reverse(id: string, before: bool, after: bool)
    | Crash(call: nat)
    | Restart(process: nat)

  function Memory(w: World, process: nat, name: ProviderName): Records {
    if (process, name) in w.memory then w.memory[(process, name)] else map[]
  }

  function Drop(w: World, call: nat): World {
    w.(calls := w.calls - {call})
  }

  function Begin(w: World, call: nat, c: Call): World {
    w.(calls := w.calls[call := c])
  }

  /** A change committed to one request, or nothing if the transaction threw. */
  function Written(w: World, id: string, result: Result<Change>): World {
    w.(db := Commit(w.db, id, result))
  }

  predicate Holds(w: World, call: nat) {
    call in w.calls && w.calls[call].id in w.db.requests
  }

  /** What the transaction that ends a call makes of its request. */
  function Ending(w: World, call: nat, matches: bool): Result<Change>
    requires Holds(w, call)
  {
    var c := w.calls[call];
    var row, closed := w.db.requests[c.id], IsClosed(w.db, c.id);
    match c
    case Answered(id, s) => AfterSubmission(row, id, s)
    case Confirmed(id, r) => AfterReconciliation(row, id, r, matches, closed)
    case Rejecting(_) => AfterRejection(row, closed)
    case _ => Err(NotReady)
  }

  function Ended(w: World, call: nat, matches: bool): World {
    if Holds(w, call) then Written(Drop(w, call), w.calls[call].id, Ending(w, call, matches)) else w
  }

  ghost function Step(w: World, e: Event): World {
    match e
    case Create(id, cycle) =>
      if id in w.db.requests || HasActive(w.db, cycle) then w else Written(w, id, Ok(Only(NewRequest(cycle))))
    case Approve(id, eligible, grossBase, netCash) =>
      if id !in w.db.requests then w
      else Written(w, id, AfterApproval(w.db.requests[id], eligible, grossBase, netCash, IsClosed(w.db, id)))
    case StartReject(call, id) =>
      if call in w.calls || id !in w.db.requests || !UnderReview(w.db.requests[id].status) then w
      else Begin(w, call, Rejecting(id))
    case PersistReject(call) =>
      if call in w.calls && w.calls[call].Rejecting? then Ended(w, call, true) else w
    case StartSubmit(call, id, name) =>
      if StartsSubmit(w, call, id) then Begin(w, call, Submitting(id, name, Key(id))) else w
    case CallSubmit(call, process, now) =>
      if call in w.calls && w.calls[call].Submitting? then AskProvider(w, call, w.calls[call], process, now) else w
    case PersistSubmit(call) =>
      if call in w.calls && w.calls[call].Answered? then Ended(w, call, true) else w
    case StartSettle(call, id, outcome) =>
      if call in w.calls || id !in w.db.requests || !Reconcilable(w.db.requests[id]) then w
      else Begin(w, call, SettlementOf(w.db.requests[id], id, outcome))
    case CallReconcile(call, process, now) =>
      if call in w.calls && w.calls[call].Settling? then AskToReconcile(w, call, w.calls[call], process, now) else w
    case PersistReconcile(call, matches) =>
      if call in w.calls && w.calls[call].Confirmed? then Ended(w, call, matches) else w
    case Reverse(id, before, after) =>
      if id !in w.db.requests then w
      else Written(w, id, AfterReversal(w.db.requests[id], id, w.db.ledger, before, after))
    case Crash(call) => Drop(w, call)
    case Restart(process) => w.(memory := w.memory - {(process, Mock), (process, Manual)})
  }

  /** The guard of a submission passes. */
  predicate StartsSubmit(w: World, call: nat, id: string) {
    call !in w.calls && id in w.db.requests && Submittable(w.db.requests[id])
  }

  function SettlementOf(row: Row, id: string, outcome: Option<Outcome>): Call
    requires Reconcilable(row)
  {
    Settling(id, row.provider.value, row.reference.value, row.key.value, Chosen(outcome))
  }

  function AskProvider(w: World, call: nat, c: Call, process: nat, now: int): World
    requires c.Submitting?
  {
    var (records, answer) := SubmitTo(c.name, Memory(w, process, c.name), Submission(c.id, c.key), now);
    w.(memory := w.memory[(process, c.name) := records],
       calls := w.calls[call := Answered(c.id, answer)],
       asked := w.asked + [Asked(c.id, c.name, c.key, answer)])
  }

  function AskToReconcile(w: World, call: nat, c: Call, process: nat, now: int): World
    requires c.Settling?
  {
    var (records, answer) :=
      ReconcileAt(c.name, Paid, Memory(w, process, c.name), c.reference, c.key, Some(c.outcome), now);
    var asked := w.(memory := w.memory[(process, c.name) := records]);
    match answer
    case Err(_) => Drop(asked, call)
    case Ok(reconciled) => Begin(asked, call, Confirmed(c.id, reconciled))
  }

  /** Requests that wait for review, one active a cycle, and nothing else. */
  ghost predicate Initial(w: World) {
    && w.db.ledger == [] && w.memory == map[] && w.calls == map[] && w.asked == []
    && (forall id :: id in w.db.requests ==> New(w.db.requests[id]))
    && OneActive(w.db)
  }

  predicate New(row: Row) {
    UnderReview(row.status) && row.provider.None? && row.reference.None? && row.key.None?
  }

  ghost function Run(w: World, events: seq<Event>): World {
    if events == [] then w else Step(Run(w, events[..|events| - 1]), events[|events| - 1])
  }

  /** The world before the event at `n`. */
  ghost function At(w: World, events: seq<Event>, n: nat): World
    requires n <= |events|
  {
    Run(w, events[..n])
  }

  lemma AtNext(w: World, events: seq<Event>, n: nat)
    requires n < |events|
    ensures At(w, events, n + 1) == Step(At(w, events, n), events[n])
  {
    assert events[..n + 1][..n] == events[..n];
  }

  lemma AtEnds(w: World, events: seq<Event>)
    ensures At(w, events, 0) == w && At(w, events, |events|) == Run(w, events)
  {
    assert events[..|events|] == events;
  }

  // ---- The invariant -----------------------------------------------------

  /** A request carries a provider, a reference and a key from its first persisted
      submission on, and reference and key are the ones its id fixes.  A rejection that
      came late may have taken the status, and nothing else. */
  predicate RowOk(id: string, row: Row) {
    && (Sent(row.status) ==> row.provider.Some?)
    && (row.provider.Some? ==> Sent(row.status) || row.status == Rejected)
    && row.key == (if row.provider.Some? then Some(Key(id)) else None)
    && row.reference == row.key
    && (row.status == Approved || Sent(row.status) ==> row.netCash.Some?)
  }

  predicate HasPaid(status: RequestStatus) {
    status == Settled || status == Reversed
  }

  function EntriesOf(ledger: seq<Entry>, id: string): seq<Entry> {
    if ledger == [] then []
    else if ledger[|ledger| - 1].requestId == id then EntriesOf(ledger[..|ledger| - 1], id) + [ledger[|ledger| - 1]]
    else EntriesOf(ledger[..|ledger| - 1], id)
  }

  /** What the ledger holds about a request, by its status. */
  function Owed(id: string, row: Row): seq<Entry> {
    match row.status
    case Settled => [Entry(PayoutDebit, -row.grossBase, id)]
    case Reversed => [Entry(PayoutDebit, -row.grossBase, id), Entry(Reversal, row.grossBase, id)]
    case _ => []
  }

  /** The review is over and the request was not turned down. */
  predicate Underway(status: RequestStatus) {
    status == Approved || Sent(status)
  }

  predicate CallOk(requests: map<string, Row>, c: Call) {
    && c.id in requests
    && match c
       case Submitting(id, _, key) => key == Key(id)
       case Answered(id, s) => s.key == Key(id) && s.reference == Key(id)
       case Settling(id, name, reference, key, _) =>
         requests[id].provider == Some(name) && reference == Key(id) && key == Key(id)
       case Confirmed(id, r) =>
         && requests[id].provider == Some(r.observed.provider)
         && r.observed.reference == Key(id) && r.observed.key == Key(id)
         && (r.observed.status == Paid || r.observed.status == Failed || r.observed.status == Returned)
       case Rejecting(_) => true
  }

  predicate AskedOk(a: Asked) {
    a.key == Key(a.id) && a.answer.key == Key(a.id) && a.answer.reference == Key(a.id) && a.answer.provider == a.name
  }

  ghost predicate RecordsOk(records: Records) {
    forall k :: k in records ==> records[k].key == k && records[k].reference == k
  }

  ghost predicate RowsOk(t: Tables) {
    forall id :: id in t.requests ==> RowOk(id, t.requests[id])
  }

  ghost predicate LedgerOk(t: Tables) {
    && (forall id :: id in t.requests ==> EntriesOf(t.ledger, id) == Owed(id, t.requests[id]))
    && (forall id :: id !in t.requests ==> EntriesOf(t.ledger, id) == [])
  }

  predicate SameCycle(t: Tables, a: string, b: string)
    requires a in t.requests && b in t.requests
  {
    t.requests[a].cycle == t.requests[b].cycle
  }

  /** What the unique index keeps: one active request a cycle. */
  ghost predicate OneActive(t: Tables) {
    forall a, b :: a in t.requests && b in t.requests && SameCycle(t, a, b)
      ==> !(Active(t.requests[a].status) && Active(t.requests[b].status)) || a == b
  }

  /** A cycle is closed by the request it paid, and pays only one. */
  ghost predicate CyclesOk(t: Tables) {
    && (forall id :: id in t.requests && HasPaid(t.requests[id].status) ==> IsClosed(t, id))
    && (forall a, b :: a in t.requests && b in t.requests && SameCycle(t, a, b)
          ==> !(HasPaid(t.requests[a].status) && HasPaid(t.requests[b].status)) || a == b)
  }

  ghost predicate TablesOk(t: Tables) {
    RowsOk(t) && LedgerOk(t) && OneActive(t) && CyclesOk(t)
  }

  ghost predicate MemoryOk(w: World) {
    forall k :: k in w.memory ==> RecordsOk(w.memory[k])
  }

  ghost predicate CallsOk(w: World) {
    forall k :: k in w.calls ==> CallOk(w.db.requests, w.calls[k])
  }

  ghost predicate Consistent(w: World) {
    && TablesOk(w.db) && MemoryOk(w) && CallsOk(w)
    && forall a :: a in w.asked ==> AskedOk(a)
  }

  // ---- Every step keeps it -----------------------------------------------

  lemma AppendEntries(ledger: seq<Entry>, e: Entry, id: string)
    ensures EntriesOf(ledger + [e], id) == EntriesOf(ledger, id) + (if e.requestId == id then [e] else [])
    ensures EntriesOf(ledger + [], id) == EntriesOf(ledger, id)
  {
    assert (ledger + [e])[..|ledger|] == ledger;
    assert ledger + [] == ledger;
  }

  /** The first debit of a request, found among its own entries. */
  lemma {:induction false} DebitAmongEntries(ledger: seq<Entry>, id: string)
    ensures Debit(ledger, id) == Debit(EntriesOf(ledger, id), id)
  {
    if ledger != [] {
      var init, e := ledger[..|ledger| - 1], ledger[|ledger| - 1];
      DebitAmongEntries(init, id);
      assert ledger == init + [e];
      DebitAppend(init, e, id);
      DebitAppend(EntriesOf(init, id), e, id);
    }
  }

  lemma {:induction false} DebitAppend(ledger: seq<Entry>, e: Entry, id: string)
    ensures Debit(ledger + [e], id) ==
      if Debit(ledger, id).Some? then Debit(ledger, id)
      else if e.kind.PayoutDebit? && e.requestId == id then Some(e) else None
  {
    if ledger == [] {
      assert ledger + [e] == [e];
    } else {
      assert (ledger + [e])[1..] == ledger[1..] + [e];
      DebitAppend(ledger[1..], e, id);
    }
  }

  /** What a change to one request must respect for the rest to stay in order. */
  predicate GoodChange(id: string, before: Row, closed: bool, c: Change) {
    && RowOk(id, c.row) && c.row.cycle == before.cycle
    && Owed(id, c.row) == Owed(id, before) + c.entries
    && (c.entries == [] || (|c.entries| == 1 && c.entries[0].requestId == id))
    && (before.provider.Some? ==> c.row.provider == before.provider)
    && (Active(c.row.status) ==> Active(before.status))
    && (HasPaid(c.row.status) ==> HasPaid(before.status) || (c.closes && !closed))
  }

  ghost predicate GoodResult(t: Tables, id: string, result: Result<Change>)
    requires id in t.requests
  {
    result.Ok? ==> GoodChange(id, t.requests[id], IsClosed(t, id), result.value)
  }

  lemma CommitKeepsLedger(t: Tables, id: string, c: Change)
    requires LedgerOk(t) && id in t.requests && GoodChange(id, t.requests[id], IsClosed(t, id), c)
    ensures LedgerOk(Commit(t, id, Ok(c)))
  {
    hide RowOk, Owed, EntriesOf;
    var after := Commit(t, id, Ok(c));
    forall other
      ensures EntriesOf(after.ledger, other) == EntriesOf(t.ledger, other) + (if other == id then c.entries else [])
    {
      if c.entries == [] {
        assert t.ledger + [] == t.ledger;
      } else {
        assert c.entries == [c.entries[0]];
        AppendEntries(t.ledger, c.entries[0], other);
      }
    }
  }

  lemma CommitKeepsCycles(t: Tables, id: string, c: Change)
    requires OneActive(t) && CyclesOk(t) && id in t.requests && GoodChange(id, t.requests[id], IsClosed(t, id), c)
    ensures OneActive(Commit(t, id, Ok(c))) && CyclesOk(Commit(t, id, Ok(c)))
  {
    hide RowOk, Owed, Active, HasPaid;
  }

  lemma WriteKeeps(w: World, id: string, result: Result<Change>)
    requires Consistent(w) && id in w.db.requests && GoodResult(w.db, id, result)
    ensures Consistent(Written(w, id, result))
  {
    hide RowOk, Owed, LedgerOk, OneActive, CyclesOk, RecordsOk, AskedOk, CallOk;
    if result.Ok? {
      var c, after := result.value, Written(w, id, result);
      CommitKeepsLedger(w.db, id, c);
      CommitKeepsCycles(w.db, id, c);
      forall k | k in after.calls ensures CallOk(after.db.requests, after.calls[k]) {
        CallSurvives(w.db.requests, id, c.row, w.calls[k]);
      }
    }
  }

  lemma CallSurvives(requests: map<string, Row>, id: string, row: Row, c: Call)
    requires id in requests && CallOk(requests, c)
    requires requests[id].provider.Some? ==> row.provider == requests[id].provider
    ensures CallOk(requests[id := row], c)
  {
  }

  lemma InsertKeepsRows(t: Tables, id: string, cycle: string)
    requires RowsOk(t) && LedgerOk(t) && id !in t.requests
    ensures var after := Commit(t, id, Ok(Only(NewRequest(cycle)))); RowsOk(after) && LedgerOk(after)
  {
    hide EntriesOf, Key;
    assert Commit(t, id, Ok(Only(NewRequest(cycle)))).ledger == t.ledger;
  }

  lemma InsertKeepsCycles(t: Tables, id: string, cycle: string)
    requires OneActive(t) && CyclesOk(t) && id !in t.requests && !HasActive(t, cycle)
    ensures var after := Commit(t, id, Ok(Only(NewRequest(cycle)))); OneActive(after) && CyclesOk(after)
  {
    var after := Commit(t, id, Ok(Only(NewRequest(cycle))));
    assert !HasPaid(NewRequest(cycle).status);
    hide Active, HasPaid, NewRequest;
    assert NewRequest(cycle).cycle == cycle by { NewOn(cycle); }
  }

  lemma NewOn(cycle: string)
    ensures NewRequest(cycle).cycle == cycle
  {
  }

  lemma CreateKeeps(w: World, id: string, cycle: string)
    requires Consistent(w)
    ensures Consistent(Step(w, Create(id, cycle)))
  {
    hide RowsOk, LedgerOk, OneActive, CyclesOk, RecordsOk, AskedOk, CallOk, HasActive;
    if id !in w.db.requests && !HasActive(w.db, cycle) {
      InsertKeepsRows(w.db, id, cycle);
      InsertKeepsCycles(w.db, id, cycle);
      assert TablesOk(Commit(w.db, id, Ok(Only(NewRequest(cycle)))));
      forall k | k in w.calls
        ensures CallOk(Commit(w.db, id, Ok(Only(NewRequest(cycle)))).requests, w.calls[k])
      {
        OtherRequests(w.db.requests, id, NewRequest(cycle), w.calls[k]);
      }
    }
  }

  lemma OtherRequests(requests: map<string, Row>, id: string, row: Row, c: Call)
    requires id !in requests && CallOk(requests, c)
    ensures CallOk(requests[id := row], c)
  {
  }

  lemma DropKeeps(w: World, call: nat)
    requires Consistent(w)
    ensures Consistent(Drop(w, call))
  {
    hide CallOk, TablesOk, AskedOk, RecordsOk;
  }

  lemma ApprovalGood(id: string, row: Row, eligible: bool, grossBase: int, netCash: int, closed: bool)
    requires RowOk(id, row)
    ensures var r := AfterApproval(row, eligible, grossBase, netCash, closed);
      r.Ok? ==> GoodChange(id, row, closed, r.value)
  {
  }

  lemma RejectionGood(id: string, row: Row, closed: bool)
    requires RowOk(id, row) && (HasPaid(row.status) ==> closed)
    ensures var r := AfterRejection(row, closed); r.Ok? ==> GoodChange(id, row, closed, r.value)
  {
  }

  lemma SubmissionGood(id: string, row: Row, s: Submitted, closed: bool)
    requires RowOk(id, row) && s.reference == Key(id)
    ensures var r := AfterSubmission(row, id, s); r.Ok? ==> GoodChange(id, row, closed, r.value)
  {
  }

  lemma ReconciliationGood(id: string, row: Row, reconciled: Reconciled, matches: bool, closed: bool)
    requires RowOk(id, row)
    ensures var r := AfterReconciliation(row, id, reconciled, matches, closed);
      r.Ok? ==> GoodChange(id, row, closed, r.value)
  {
  }

  lemma ReversalGood(id: string, row: Row, ledger: seq<Entry>, before: bool, after: bool, closed: bool)
    requires RowOk(id, row) && EntriesOf(ledger, id) == Owed(id, row)
    ensures var r := AfterReversal(row, id, ledger, before, after); r.Ok? ==> GoodChange(id, row, closed, r.value)
    ensures row.status == Settled ==> Debit(ledger, id).Some?
  {
    hide EntriesOf, Key;
    DebitAmongEntries(ledger, id);
    if row.status == Settled {
      assert Debit(Owed(id, row), id) == Some(Entry(PayoutDebit, -row.grossBase, id));
    }
  }

  lemma EndingGood(w: World, call: nat, matches: bool)
    requires Consistent(w) && Holds(w, call)
    ensures GoodResult(w.db, w.calls[call].id, Ending(w, call, matches))
  {
    hide GoodChange, AfterSubmission, AfterReconciliation, AfterRejection, RowOk, Owed, EntriesOf, OneActive, RecordsOk;
    var c := w.calls[call];
    var row, closed := w.db.requests[c.id], IsClosed(w.db, c.id);
    assert CallOk(w.db.requests, c) && RowOk(c.id, row);
    match c
    case Answered(id, s) => SubmissionGood(id, row, s, closed);
    case Confirmed(id, r) => ReconciliationGood(id, row, r, matches, closed);
    case Rejecting(id) => RejectionGood(id, row, closed);
    case _ =>
  }

  lemma EndedKeeps(w: World, call: nat, matches: bool)
    requires Consistent(w)
    ensures Consistent(Ended(w, call, matches))
  {
    hide Consistent, Ending, GoodResult;
    if Holds(w, call) {
      EndingGood(w, call, matches);
      DropKeeps(w, call);
      assert GoodResult(Drop(w, call).db, w.calls[call].id, Ending(w, call, matches));
      WriteKeeps(Drop(w, call), w.calls[call].id, Ending(w, call, matches));
    }
  }

  lemma SubmitKeepsRecords(name: ProviderName, records: Records, id: string, now: int)
    requires RecordsOk(records)
    ensures var (kept, answer) := SubmitTo(name, records, Submission(id, Key(id)), now);
      RecordsOk(kept) && answer.reference == Key(id) && answer.key == Key(id) && answer.provider == name
  {
  }

  /** Reconciliation asks about a reference that equals its key: it never fails, and
      its answer does not depend on what the provider remembers. */
  lemma ReconcileAnswer(name: ProviderName, records: Records, key: string, outcome: Outcome, now: int)
    requires RecordsOk(records)
    ensures var (kept, answer) := ReconcileAt(name, Paid, records, key, key, Some(outcome), now);
      && RecordsOk(kept)
      && answer == Ok(Reconciled(Observed(name, key, key, if name.Mock? then Paid else outcome, now), now))
  {
  }

  lemma AskProviderKeeps(w: World, call: nat, process: nat, now: int)
    requires Consistent(w) && call in w.calls && w.calls[call].Submitting?
    ensures Consistent(AskProvider(w, call, w.calls[call], process, now))
  {
    hide TablesOk, RecordsOk, SubmitTo;
    var c := w.calls[call];
    assert CallOk(w.db.requests, c);
    assert RecordsOk(map[]) by { EmptyRecords(); }
    SubmitKeepsRecords(c.name, Memory(w, process, c.name), c.id, now);
  }

  lemma EmptyRecords()
    ensures RecordsOk(map[])
  {
  }

  lemma AskToReconcileKeeps(w: World, call: nat, process: nat, now: int)
    requires Consistent(w) && call in w.calls && w.calls[call].Settling?
    ensures Consistent(AskToReconcile(w, call, w.calls[call], process, now))
  {
    hide TablesOk, RecordsOk, ReconcileAt;
    var c := w.calls[call];
    assert CallOk(w.db.requests, c);
    assert RecordsOk(map[]) by { EmptyRecords(); }
    ReconcileAnswer(c.name, Memory(w, process, c.name), c.key, c.outcome, now);
  }

  lemma BeginKeeps(w: World, call: nat, c: Call)
    requires Consistent(w) && CallOk(w.db.requests, c)
    ensures Consistent(Begin(w, call, c))
  {
    hide CallOk, TablesOk, AskedOk, RecordsOk;
  }

  lemma StartSettleKeeps(w: World, call: nat, id: string, outcome: Option<Outcome>)
    requires Consistent(w) && id in w.db.requests && Reconcilable(w.db.requests[id])
    ensures Consistent(Begin(w, call, SettlementOf(w.db.requests[id], id, outcome)))
  {
    hide RecordsOk, LedgerOk, OneActive, CyclesOk, AskedOk;
    assert RowOk(id, w.db.requests[id]);
    BeginKeeps(w, call, SettlementOf(w.db.requests[id], id, outcome));
  }

  lemma RestartKeeps(w: World, process: nat)
    requires Consistent(w)
    ensures Consistent(Step(w, Restart(process)))
  {
    hide CallOk, TablesOk, AskedOk, RecordsOk;
  }

  lemma ReviewKeeps(w: World, id: string, eligible: bool, grossBase: int, netCash: int)
    requires Consistent(w)
    ensures Consistent(Step(w, Approve(id, eligible, grossBase, netCash)))
  {
    hide MemoryOk, CallsOk, AskedOk, LedgerOk, OneActive, CyclesOk, GoodChange, AfterApproval, RowOk;
    if id in w.db.requests {
      var row, closed := w.db.requests[id], IsClosed(w.db, id);
      ApprovalGood(id, row, eligible, grossBase, netCash, closed);
      WriteKeeps(w, id, AfterApproval(row, eligible, grossBase, netCash, closed));
    }
  }

  lemma ReverseKeeps(w: World, id: string, before: bool, after: bool)
    requires Consistent(w)
    ensures Consistent(Step(w, Reverse(id, before, after)))
  {
    hide MemoryOk, CallsOk, AskedOk, OneActive, CyclesOk, GoodChange, AfterReversal, RowOk, EntriesOf, Owed;
    if id in w.db.requests {
      var row := w.db.requests[id];
      ReversalGood(id, row, w.db.ledger, before, after, IsClosed(w.db, id));
      WriteKeeps(w, id, AfterReversal(row, id, w.db.ledger, before, after));
    }
  }

  lemma StepKeeps(w: World, e: Event)
    requires Consistent(w)
    ensures Consistent(Step(w, e))
  {
    hide Consistent, AskProvider, AskToReconcile, Ended, AfterApproval, AfterReversal;
    match e
    case Create(id, cycle) => CreateKeeps(w, id, cycle);
    case Approve(id, eligible, grossBase, netCash) => ReviewKeeps(w, id, eligible, grossBase, netCash);
    case StartReject(call, id) =>
      if id in w.db.requests { BeginKeeps(w, call, Rejecting(id)); }
    case PersistReject(call) => EndedKeeps(w, call, true);
    case StartSubmit(call, id, name) =>
      if id in w.db.requests { BeginKeeps(w, call, Submitting(id, name, Key(id))); }
    case CallSubmit(call, process, now) =>
      if call in w.calls && w.calls[call].Submitting? { AskProviderKeeps(w, call, process, now); }
    case PersistSubmit(call) => EndedKeeps(w, call, true);
    case StartSettle(call, id, outcome) =>
      if id in w.db.requests && Reconcilable(w.db.requests[id]) { StartSettleKeeps(w, call, id, outcome); }
    case CallReconcile(call, process, now) =>
      if call in w.calls && w.calls[call].Settling? { AskToReconcileKeeps(w, call, process, now); }
    case PersistReconcile(call, matches) => EndedKeeps(w, call, matches);
    case Reverse(id, before, after) => ReverseKeeps(w, id, before, after);
    case Crash(call) => DropKeeps(w, call);
    case Restart(process) => RestartKeeps(w, process);
  }

  lemma {:induction false} RunKeeps(w: World, events: seq<Event>)
    requires Initial(w)
    ensures Consistent(Run(w, events))
  {
    hide Consistent, Step;
    if events == [] {
      InitialConsistent(w);
    } else {
      RunKeeps(w, events[..|events| - 1]);
      StepKeeps(Run(w, events[..|events| - 1]), events[|events| - 1]);
    }
  }

  lemma InitialConsistent(w: World)
    requires Initial(w)
    ensures Consistent(w)
  {
    hide OneActive;
  }

  lemma PartsOf(w: World, id: string, process: nat, name: ProviderName)
    requires Consistent(w) && id in w.db.requests
    ensures RowOk(id, w.db.requests[id]) && RecordsOk(Memory(w, process, name))
    ensures HasPaid(w.db.requests[id].status) ==> IsClosed(w.db, id)
  {
  }

  // ---- In every run ------------------------------------------------------

  /** Whatever interleaves, crashes or is forgotten: every submission of a request
      carries the same key and is answered with the same reference, by any process of
      either provider. */
  lemma OneKeyOneReference(w: World, events: seq<Event>, a: Asked, b: Asked)
    requires Initial(w) && a in Run(w, events).asked && b in Run(w, events).asked && a.id == b.id
    ensures a.key == b.key == Key(a.id)
    ensures a.answer.reference == b.answer.reference == Key(a.id)
    ensures a.answer.key == b.answer.key
  {
    RunKeeps(w, events);
    assert AskedOk(a) && AskedOk(b);
  }

  /** At every point of every run, the answer a provider gives to a settlement is the
      same with its memory and without it. */
  lemma MemoryDoesNotMatter(w: World, events: seq<Event>, call: nat, process: nat, now: int)
    requires Initial(w) && call in Run(w, events).calls && Run(w, events).calls[call].Settling?
    ensures var world := Run(w, events);
      var c := world.calls[call];
      var memory := Memory(world, process, c.name);
      var kept := ReconcileAt(c.name, Paid, memory, c.reference, c.key, Some(c.outcome), now).1;
      var lost := ReconcileAt(c.name, Paid, map[], c.reference, c.key, Some(c.outcome), now).1;
      && kept == lost && kept.Ok?
      && kept.value.observed.reference == Key(c.id)
      && kept.value.observed.status == (if c.name.Mock? then Paid else c.outcome)
  {
    RunKeeps(w, events);
    var world := Run(w, events);
    var c := world.calls[call];
    assert CallOk(world.db.requests, c);
    ReconcileAnswer(c.name, Memory(world, process, c.name), c.key, c.outcome, now);
    ReconcileAnswer(c.name, map[], c.key, c.outcome, now);
  }

  /** Money moves once: the ledger holds one debit of the approved amount for a paid
      request, that debit and its opposite for a reversed one, and nothing else. */
  lemma LedgerFollowsStatus(w: World, events: seq<Event>, id: string)
    requires Initial(w)
    ensures var t := Run(w, events).db;
      EntriesOf(t.ledger, id) == if id in t.requests then Owed(id, t.requests[id]) else []
  {
    hide Step;
    RunKeeps(w, events);
  }

  /** A cycle pays at most one request, and never has two that could still be paid. */
  lemma OnePayoutPerCycle(w: World, events: seq<Event>, a: string, b: string)
    requires Initial(w) && a in Run(w, events).db.requests && b in Run(w, events).db.requests
    ensures var t := Run(w, events).db;
      SameCycle(t, a, b) && a != b ==>
        && !(HasPaid(t.requests[a].status) && HasPaid(t.requests[b].status))
        && !(Active(t.requests[a].status) && Active(t.requests[b].status))
  {
    hide Step, Active, HasPaid;
    RunKeeps(w, events);
  }

  /** A settled request can always be reversed once its account reconciles. */
  lemma ReversalSucceeds(w: World, events: seq<Event>, id: string, before: bool, after: bool)
    requires Initial(w) && id in Run(w, events).db.requests
    ensures var t := Run(w, events).db;
      AfterReversal(t.requests[id], id, t.ledger, before, after).Ok? <==>
      t.requests[id].status == Reversed || (t.requests[id].status == Settled && before && after)
  {
    hide Step, Debit, EntriesOf, Owed;
    RunKeeps(w, events);
    var t := Run(w, events).db;
    ReversalGood(id, t.requests[id], t.ledger, before, after, true);
  }

  // ---- Late rejections ---------------------------------------------------

  /** A rejection read the status while the request was under review, and writes now
      that the review is over.  Nothing stops the write: the request is not reversed and
      its cycle is open. */
  ghost predicate Overtakes(w: World, e: Event, id: string) {
    && e.PersistReject? && Holds(w, e.call) && w.calls[e.call] == Rejecting(id)
    && Underway(w.db.requests[id].status) && w.db.requests[id].status != Reversed && !IsClosed(w.db, id)
  }

  ghost predicate OvertakenAt(w: World, events: seq<Event>, n: int, id: string) {
    0 <= n < |events| && Overtakes(At(w, events, n), events[n], id)
  }

  /** A late rejection never reaches a request that was paid: its cycle is closed. */
  lemma PaidIsSafe(w: World, events: seq<Event>, n: nat, id: string)
    requires Initial(w) && OvertakenAt(w, events, n, id)
    ensures var status := At(w, events, n).db.requests[id].status;
      status == Approved || status == InProcess || status == Unpaid
  {
    RunKeeps(w, events[..n]);
    PartsOf(At(w, events, n), id, 0, Mock);
  }

  /** From any world where the request is under review, two more calls are enough: a
      rejection reads, an approval commits, a provider is asked and its answer recorded,
      and the rejection's write then takes the status of a request in process. */
  lemma RejectionOvertakes(w: World, id: string, late: nat, call: nat, name: ProviderName, process: nat, now: int)
    requires id in w.db.requests && w.db.requests[id].status == PendingReview && New(w.db.requests[id])
    requires !IsClosed(w.db, id) && late !in w.calls && call !in w.calls && late != call
    requires RecordsOk(Memory(w, process, name))
    ensures var before := Run(w, [StartReject(late, id), Approve(id, true, 5, 4), StartSubmit(call, id, name),
                                  CallSubmit(call, process, now), PersistSubmit(call)]);
      var after := Step(before, PersistReject(late));
      && id in before.db.requests && before.db.requests[id].status == InProcess
      && before.db.requests[id].provider == Some(name)
      && Overtakes(before, PersistReject(late), id)
      && id in after.db.requests && after.db.requests[id] == before.db.requests[id].(status := Rejected)
  {
    hide Step, Run, RecordsOk, Key, Overtakes;
    var review, approve := StartReject(late, id), Approve(id, true, 5, 4);
    var approved := Step(Step(w, review), approve);
    ReviewedAndApproved(w, id, late);
    TwoMore(w, review, approve);
    ThreeMore(w, [review, approve], StartSubmit(call, id, name), CallSubmit(call, process, now), PersistSubmit(call));
    assert [review, approve] + [StartSubmit(call, id, name), CallSubmit(call, process, now), PersistSubmit(call)]
        == [review, approve, StartSubmit(call, id, name), CallSubmit(call, process, now), PersistSubmit(call)];
    OneTry(approved, id, name, call, process, now);
    var asked := Step(Step(approved, StartSubmit(call, id, name)), CallSubmit(call, process, now));
    LateWrite(Step(asked, PersistSubmit(call)), id, late);
  }

  lemma ReviewedAndApproved(w: World, id: string, late: nat)
    requires id in w.db.requests && w.db.requests[id].status == PendingReview && New(w.db.requests[id])
    requires late !in w.calls
    ensures var approved := Step(Step(w, StartReject(late, id)), Approve(id, true, 5, 4));
      && id in approved.db.requests && RowOk(id, approved.db.requests[id])
      && approved.db.requests[id].status == Approved && approved.db.requests[id].cycle == w.db.requests[id].cycle
      && approved.db.closed == w.db.closed
      && approved.calls == w.calls[late := Rejecting(id)] && approved.memory == w.memory
  {
    hide Key;
  }

  lemma LateWrite(w: World, id: string, late: nat)
    requires id in w.db.requests && w.db.requests[id].status == InProcess && !IsClosed(w.db, id)
    requires late in w.calls && w.calls[late] == Rejecting(id)
    ensures Overtakes(w, PersistReject(late), id)
    ensures var after := Step(w, PersistReject(late));
      id in after.db.requests && after.db.requests[id] == w.db.requests[id].(status := Rejected)
  {
  }

  // ---- Statuses only move forward, unless overtaken ----------------------

  predicate Onward(before: RequestStatus, after: RequestStatus) {
    || before == after
    || match before
       case PendingReview => after != NeedsInformation
       case NeedsInformation => after != PendingReview
       case Approved => Sent(after)
       case InProcess => after == Settled || after == Unpaid || after == Reversed
       case Settled => after == Reversed
       case Rejected => false
       case Unpaid => false
       case Reversed => false
  }

  predicate RowOnward(before: Row, after: Row) {
    Onward(before.status, after.status) && RowKept(before, after)
  }

  /** The fields that never change once set, whatever becomes of the status. */
  predicate RowKept(before: Row, after: Row) {
    && after.cycle == before.cycle
    && (before.provider.Some? ==>
          after.provider == before.provider && after.reference == before.reference && after.key == before.key)
    && (Underway(before.status) || before.status == Rejected ==>
          after.grossBase == before.grossBase && after.netCash == before.netCash)
  }

  /** No transaction but the write of a rejection takes a request back. */
  lemma ChangesOnward(id: string, row: Row, closed: bool, eligible: bool, grossBase: int, netCash: int,
                      s: Submitted, r: Reconciled, matches: bool)
    requires RowOk(id, row)
    ensures var c := AfterApproval(row, eligible, grossBase, netCash, closed);
      c.Ok? ==> RowOnward(row, c.value.row) && row.status != Rejected
    ensures var c := AfterSubmission(row, id, s);
      c.Ok? ==> RowOnward(row, c.value.row) && (row.status == Rejected ==> c.value.row == row)
    ensures var c := AfterReconciliation(row, id, r, matches, closed);
      c.Ok? ==> RowOnward(row, c.value.row) && row.status != Rejected
  {
    hide Key;
  }

  lemma ReversalOnward(id: string, row: Row, ledger: seq<Entry>, before: bool, after: bool)
    ensures var c := AfterReversal(row, id, ledger, before, after);
      c.Ok? ==> RowOnward(row, c.value.row) && row.status != Rejected
  {
    hide Debit;
  }

  /** The write of a rejection does so exactly when the review is over. */
  lemma RejectionBack(row: Row, closed: bool)
    ensures var c := AfterRejection(row, closed);
      c.Ok? ==>
        && c.value.row == row.(status := Rejected) && RowKept(row, c.value.row)
        && (RowOnward(row, c.value.row) <==> !Underway(row.status))
  {
  }

  /** The transaction an event runs on a request, if any. */
  ghost function Transaction(w: World, e: Event, id: string): Option<Result<Change>>
    requires id in w.db.requests
  {
    var row, closed := w.db.requests[id], IsClosed(w.db, id);
    match e
    case Approve(other, eligible, grossBase, netCash) =>
      if other == id then Some(AfterApproval(row, eligible, grossBase, netCash, closed)) else None
    case PersistReject(call) =>
      if Holds(w, call) && w.calls[call] == Rejecting(id) then Some(AfterRejection(row, closed)) else None
    case PersistSubmit(call) =>
      if Holds(w, call) && w.calls[call].Answered? && w.calls[call].id == id
      then Some(AfterSubmission(row, id, w.calls[call].submitted)) else None
    case PersistReconcile(call, matches) =>
      if Holds(w, call) && w.calls[call].Confirmed? && w.calls[call].id == id
      then Some(AfterReconciliation(row, id, w.calls[call].reconciled, matches, closed)) else None
    case Reverse(other, before, after) =>
      if other == id then Some(AfterReversal(row, id, w.db.ledger, before, after)) else None
    case _ => None
  }

  function RowAfter(row: Row, transaction: Option<Result<Change>>): Row {
    if transaction.Some? && transaction.value.Ok? then transaction.value.value.row else row
  }

  lemma StepRow(w: World, e: Event, id: string)
    requires id in w.db.requests
    ensures id in Step(w, e).db.requests
    ensures Step(w, e).db.requests[id] == RowAfter(w.db.requests[id], Transaction(w, e, id))
  {
    hide SubmitTo, ReconcileAt, AfterApproval, AfterSubmission, AfterReconciliation, AfterReversal, AfterRejection,
      Reconcilable, Memory, IsClosed, HasActive;
  }

  /** One event moves a request onward exactly when it does not overtake it; and even
      then only its status goes back. */
  lemma StepOnward(w: World, e: Event, id: string)
    requires id in w.db.requests && RowOk(id, w.db.requests[id])
    ensures id in Step(w, e).db.requests
    ensures var row, after := w.db.requests[id], Step(w, e).db.requests[id];
      && RowKept(row, after)
      && (RowOnward(row, after) <==> !Overtakes(w, e, id))
      && (row.status == Rejected ==> after == row)
      && (Overtakes(w, e, id) ==> after == row.(status := Rejected))
  {
    var row, closed := w.db.requests[id], IsClosed(w.db, id);
    StepRow(w, e, id);
    Still(row);
    RejectionBack(row, closed);
    assert forall after :: RowOnward(row, after) ==> RowKept(row, after);
    assert AfterRejection(row, closed).Ok? && row.status == Rejected ==>
      AfterRejection(row, closed).value.row == row && !Underway(row.status);
    hide Step, RowOnward, RowKept, RowOk, AfterApproval, AfterSubmission, AfterReconciliation,
      AfterReversal, AfterRejection, Underway, IsClosed;
    match e
    case Approve(_, eligible, grossBase, netCash) =>
      ChangesOnward(id, row, closed, eligible, grossBase, netCash, NO_ANSWER, NO_OUTCOME, true);
    case PersistSubmit(call) =>
      if call in w.calls && w.calls[call].Answered? {
        ChangesOnward(id, row, closed, true, 0, 0, w.calls[call].submitted, NO_OUTCOME, true);
      }
    case PersistReconcile(call, matches) =>
      if call in w.calls && w.calls[call].Confirmed? {
        ChangesOnward(id, row, closed, true, 0, 0, NO_ANSWER, w.calls[call].reconciled, matches);
      }
    case Reverse(_, before, after) => ReversalOnward(id, row, w.db.ledger, before, after);
    case _ =>
  }

  ghost const NO_ANSWER := Submitted(Mock, "", "", Pending, 0)
  ghost const NO_OUTCOME := Reconciled(Observed(Mock, "", "", Pending, 0), 0)

  /** Along a run, the request at two moments. */
  ghost predicate OnwardBetween(w: World, events: seq<Event>, m: nat, n: nat, id: string)
    requires m <= n <= |events|
  {
    && id in At(w, events, m).db.requests && id in At(w, events, n).db.requests
    && RowOnward(At(w, events, m).db.requests[id], At(w, events, n).db.requests[id])
  }

  lemma NextOnward(w: World, events: seq<Event>, n: nat, id: string)
    requires Initial(w) && n < |events| && id in At(w, events, n).db.requests
    ensures id in At(w, events, n + 1).db.requests
    ensures OnwardBetween(w, events, n, n + 1, id) <==> !OvertakenAt(w, events, n, id)
    ensures At(w, events, n).db.requests[id].status == Rejected ==>
      At(w, events, n + 1).db.requests[id] == At(w, events, n).db.requests[id]
    ensures RowKept(At(w, events, n).db.requests[id], At(w, events, n + 1).db.requests[id])
  {
    hide Step, Consistent, RowOk, Overtakes, RowOnward, RowKept, At;
    Unfold(w, events, n);
    RunKeeps(w, events[..n]);
    AtNext(w, events, n);
    PartsOf(At(w, events, n), id, 0, Mock);
    StepOnward(At(w, events, n), events[n], id);
  }

  lemma Unfold(w: World, events: seq<Event>, n: nat)
    requires n <= |events|
    ensures At(w, events, n) == Run(w, events[..n])
  {
  }

  lemma {:induction false} StaysOnward(w: World, events: seq<Event>, m: nat, n: nat, id: string)
    requires Initial(w) && m <= n <= |events| && id in At(w, events, m).db.requests
    requires forall k :: m <= k < n ==> !OvertakenAt(w, events, k, id)
    ensures OnwardBetween(w, events, m, n, id)
    decreases n
  {
    hide At, OvertakenAt, RowOnward;
    if m == n {
      Still(At(w, events, m).db.requests[id]);
    } else {
      StaysOnward(w, events, m, n - 1, id);
      NextOnward(w, events, n - 1, id);
      Onwards(At(w, events, m).db.requests[id], At(w, events, n - 1).db.requests[id], At(w, events, n).db.requests[id]);
    }
  }

  /** A request moves only forward over a whole run — rejected, failed and reversed are
      final, paid is left only by a reversal, and what was recorded never changes — if
      and only if no rejection of it is written after its review was over. */
  lemma RunOnward(w: World, events: seq<Event>, id: string)
    requires Initial(w)
    ensures (forall m: nat, n: nat :: m <= n <= |events| && id in At(w, events, m).db.requests ==>
               OnwardBetween(w, events, m, n, id))
      <==> forall k :: !OvertakenAt(w, events, k, id)
  {
    hide At, OnwardBetween;
    if forall k :: !OvertakenAt(w, events, k, id) {
      forall m: nat, n: nat | m <= n <= |events| && id in At(w, events, m).db.requests
        ensures OnwardBetween(w, events, m, n, id)
      {
        StaysOnward(w, events, m, n, id);
      }
    } else {
      var k :| OvertakenAt(w, events, k, id);
      assert id in At(w, events, k).db.requests;
      NextOnward(w, events, k, id);
    }
  }

  lemma Still(row: Row)
    ensures RowOnward(row, row)
  {
  }

  lemma Onwards(a: Row, b: Row, c: Row)
    requires RowOnward(a, b) && RowOnward(b, c)
    ensures RowOnward(a, c)
  {
  }

  // ---- When recording an answer fails ------------------------------------

  /** The review of this call's request was over once its guard had passed, and unless
      it was overtaken it still is. */
  ghost predicate Passed(w: World, events: seq<Event>, n: nat, call: nat)
    requires n <= |events|
  {
    var now := At(w, events, n);
    call in now.calls && (now.calls[call].Submitting? || now.calls[call].Answered?) ==>
      var id := now.calls[call].id;
      id in now.db.requests
      && (Underway(now.db.requests[id].status) || exists k :: k < n && OvertakenAt(w, events, k, id))
  }

  lemma {:induction false} GuardPassed(w: World, events: seq<Event>, n: nat, call: nat)
    requires Initial(w) && n <= |events|
    ensures Passed(w, events, n, call)
  {
    hide Step, OvertakenAt, Consistent;
    if n == 0 {
      AtEnds(w, events);
    } else {
      GuardPassed(w, events, n - 1, call);
      AtNext(w, events, n - 1);
      hide At;
      var before, now := At(w, events, n - 1), At(w, events, n);
      CallBefore(before, events[n - 1], call);
      if call in now.calls && (now.calls[call].Submitting? || now.calls[call].Answered?) {
        var id := now.calls[call].id;
        NextOnward(w, events, n - 1, id);
        if Underway(before.db.requests[id].status) && !Underway(now.db.requests[id].status) {
          assert OvertakenAt(w, events, n - 1, id);
        }
      }
    }
  }

  /** A submitting call was there before, for the same request, or has just passed the
      guard. */
  lemma CallBefore(w: World, e: Event, call: nat)
    ensures var now := Step(w, e);
      call in now.calls && (now.calls[call].Submitting? || now.calls[call].Answered?) ==>
        if call in w.calls
        then (w.calls[call].Submitting? || w.calls[call].Answered?) && w.calls[call].id == now.calls[call].id
        else now.calls[call].id in w.db.requests && w.db.requests[now.calls[call].id].status == Approved
  {
    hide SubmitTo, ReconcileAt, AfterSubmission, AfterReconciliation, AfterReversal, AfterApproval, AfterRejection;
  }

  /** The request was turned down by a late rejection before any answer was recorded. */
  ghost predicate RejectedFirst(w: World, events: seq<Event>, id: string) {
    exists k :: OvertakenUnsent(w, events, k, id)
  }

  ghost predicate OvertakenUnsent(w: World, events: seq<Event>, k: int, id: string) {
    OvertakenAt(w, events, k, id) && At(w, events, k).db.requests[id].status == Approved
  }

  /** Recording a provider's answer fails exactly when another provider's answer was
      recorded first, or a late rejection was written before any answer was. */
  lemma PersistFailsExactly(w: World, events: seq<Event>, call: nat)
    requires Initial(w) && call in Run(w, events).calls && Run(w, events).calls[call].Answered?
    ensures var now := Run(w, events);
      var c := now.calls[call];
      && c.id in now.db.requests
      && var row := now.db.requests[c.id];
      && (AfterSubmission(row, c.id, c.submitted).Err? <==>
          (row.provider.Some? && row.provider.value != c.submitted.provider) || RejectedFirst(w, events, c.id))
  {
    hide Step, Overtakes, At, Key;
    RunKeeps(w, events);
    AtEnds(w, events);
    var now := Run(w, events);
    var id := now.calls[call].id;
    assert CallOk(now.db.requests, now.calls[call]) && RowOk(id, now.db.requests[id]);
    GuardPassed(w, events, |events|, call);
    if RejectedFirst(w, events, id) {
      var k :| OvertakenUnsent(w, events, k, id);
      RejectedForGood(w, events, k, |events|, id);
    }
    if !Underway(now.db.requests[id].status) && now.db.requests[id].provider.None? {
      var k :| 0 <= k < |events| && OvertakenAt(w, events, k, id);
      ProviderStays(w, events, k, |events|, id);
      assert OvertakenUnsent(w, events, k, id);
    }
  }

  /** Rejected before an answer was recorded means without a provider, for good. */
  lemma {:induction false} RejectedForGood(w: World, events: seq<Event>, k: nat, n: nat, id: string)
    requires Initial(w) && k < n <= |events| && OvertakenUnsent(w, events, k, id)
    ensures id in At(w, events, n).db.requests
    ensures At(w, events, n).db.requests[id].status == Rejected && At(w, events, n).db.requests[id].provider.None?
    decreases n
  {
    hide At, Step, Consistent;
    if n == k + 1 {
      Unfold(w, events, k);
      RunKeeps(w, events[..k]);
      PartsOf(At(w, events, k), id, 0, Mock);
      AtNext(w, events, k);
      StepOnward(At(w, events, k), events[k], id);
    } else {
      RejectedForGood(w, events, k, n - 1, id);
      NextOnward(w, events, n - 1, id);
    }
  }

  /** A request overtaken with a provider on record keeps it. */
  lemma {:induction false} ProviderStays(w: World, events: seq<Event>, k: nat, n: nat, id: string)
    requires Initial(w) && k <= n <= |events| && OvertakenAt(w, events, k, id)
    ensures id in At(w, events, n).db.requests
    ensures At(w, events, k).db.requests[id].status != Approved ==> At(w, events, n).db.requests[id].provider.Some?
    decreases n
  {
    hide At, Step, Consistent;
    if n == k {
      Unfold(w, events, k);
      RunKeeps(w, events[..k]);
      PartsOf(At(w, events, k), id, 0, Mock);
    } else {
      ProviderStays(w, events, k, n - 1, id);
      NextOnward(w, events, n - 1, id);
    }
  }

  // ---- Retries -----------------------------------------------------------

  /** After any run, however many earlier tries died between the provider's answer and
      the database, an undisturbed retry of an approved request completes it. */
  lemma RetryCompletes(w: World, events: seq<Event>, id: string, name: ProviderName, call: nat, process: nat, now: int)
    requires Initial(w) && id in Run(w, events).db.requests && Run(w, events).db.requests[id].status == Approved
    requires call !in Run(w, events).calls
    ensures var tries := [StartSubmit(call, id, name), CallSubmit(call, process, now), PersistSubmit(call)];
      Completed(Run(w, events + tries), id, name)
  {
    hide Consistent, Step, RecordsOk;
    RunKeeps(w, events);
    PartsOf(Run(w, events), id, process, name);
    ThreeMore(w, events, StartSubmit(call, id, name), CallSubmit(call, process, now), PersistSubmit(call));
    OneTry(Run(w, events), id, name, call, process, now);
  }

  predicate Completed(w: World, id: string, name: ProviderName) {
    && id in w.db.requests
    && var row := w.db.requests[id];
    row.status == InProcess && row.provider == Some(name) && row.reference == Some(Key(id)) && row.key == Some(Key(id))
  }

  lemma OneTry(w: World, id: string, name: ProviderName, call: nat, process: nat, now: int)
    requires id in w.db.requests && RowOk(id, w.db.requests[id]) && w.db.requests[id].status == Approved
    requires call !in w.calls && RecordsOk(Memory(w, process, name))
    ensures var asked := Step(Step(w, StartSubmit(call, id, name)), CallSubmit(call, process, now));
      var tried := Step(asked, PersistSubmit(call));
      && Completed(tried, id, name)
      && tried.calls == w.calls - {call} && tried.db.closed == w.db.closed
      && tried.db.requests[id].cycle == w.db.requests[id].cycle
  {
    hide SubmitTo, RecordsOk;
    var started := Step(w, StartSubmit(call, id, name));
    SubmitKeepsRecords(name, Memory(started, process, name), id, now);
    assert w.calls[call := Submitting(id, name, Key(id))] - {call} == w.calls - {call};
  }

  lemma ThreeMore(w: World, events: seq<Event>, a: Event, b: Event, c: Event)
    ensures Run(w, events + [a, b, c]) == Step(Step(Step(Run(w, events), a), b), c)
  {
    hide Step;
    var one, two, three := events + [a], events + [a, b], events + [a, b, c];
    assert one[..|one| - 1] == events && two[..|two| - 1] == one && three[..|three| - 1] == two;
    assert Run(w, one) == Step(Run(w, events), a);
    assert Run(w, two) == Step(Run(w, one), b);
  }

  lemma TwoMore(w: World, a: Event, b: Event)
    ensures Run(w, [a, b]) == Step(Step(w, a), b)
  {
    hide Step;
    assert [a, b][..1] == [a] && [a][..0] == [];
    assert Run(w, [a]) == Step(Run(w, []), a);
  }

  // ---- Which providers are asked -----------------------------------------

  ghost predicate WasAsked(w: World, id: string, name: ProviderName) {
    exists a :: a in w.asked && a.id == id && a.name == name
  }

  /** A try whose guard passes at `i` and whose call is still there to be made at `j`. */
  ghost predicate Reaches(w: World, events: seq<Event>, i: int, j: int, id: string, name: ProviderName) {
    && 0 <= i < j < |events|
    && events[i].StartSubmit? && events[i].id == id && events[i].name == name
    && StartsSubmit(At(w, events, i), events[i].call, id)
    && events[j].CallSubmit? && events[j].call == events[i].call
    && forall k :: i < k < j ==> !Disturbs(events[k], events[i].call)
  }

  /** The events that end a call waiting for its provider, or let it go on. */
  predicate Disturbs(e: Event, call: nat) {
    (e.Crash? && e.call == call) || (e.CallSubmit? && e.call == call)
  }

  lemma StepSubmitting(w: World, e: Event, call: nat, id: string, name: ProviderName)
    ensures var now := Step(w, e);
      && (Waits(now, call, id, name) <==>
            || (e == StartSubmit(call, id, name) && StartsSubmit(w, call, id))
            || (Waits(w, call, id, name) && !Disturbs(e, call)))
      && (WasAsked(now, id, name) <==>
            || WasAsked(w, id, name)
            || (e.CallSubmit? && e.call in w.calls && w.calls[e.call].Submitting?
                && w.calls[e.call].id == id && w.calls[e.call].name == name))
  {
    hide SubmitTo, ReconcileAt, AfterSubmission, AfterReconciliation, AfterReversal, AfterApproval, AfterRejection;
    if e.CallSubmit? && e.call in w.calls && w.calls[e.call].Submitting? {
      var now := Step(w, e);
      assert now.asked[|w.asked|] in now.asked;
      assert forall a :: a in w.asked ==> a in now.asked;
    }
  }

  /** A call waits for its provider exactly when its guard passed some time before and
      nothing ended it or let it go on since. */
  lemma {:induction false} WaitingSince(w: World, events: seq<Event>, n: nat, call: nat, id: string, name: ProviderName)
    requires Initial(w) && n <= |events|
    ensures Waits(At(w, events, n), call, id, name) <==> exists i :: StartedAt(w, events, i, n, call, id, name)
  {
    hide Step, At, StartsSubmit;
    if n == 0 {
      AtEnds(w, events);
    } else {
      WaitingSince(w, events, n - 1, call, id, name);
      AtNext(w, events, n - 1);
      StepSubmitting(At(w, events, n - 1), events[n - 1], call, id, name);
      if Waits(At(w, events, n), call, id, name) {
        if Waits(At(w, events, n - 1), call, id, name) && !Disturbs(events[n - 1], call) {
          var i :| StartedAt(w, events, i, n - 1, call, id, name);
          assert StartedAt(w, events, i, n, call, id, name);
        } else {
          assert StartedAt(w, events, n - 1, n, call, id, name);
        }
      }
      if i :| StartedAt(w, events, i, n, call, id, name) {
        if i < n - 1 { assert StartedAt(w, events, i, n - 1, call, id, name); }
      }
    }
  }

  predicate Waits(w: World, call: nat, id: string, name: ProviderName) {
    call in w.calls && w.calls[call] == Submitting(id, name, Key(id))
  }

  ghost predicate StartedAt(w: World, events: seq<Event>, i: int, n: int, call: nat, id: string, name: ProviderName) {
    && 0 <= i < n <= |events|
    && events[i] == StartSubmit(call, id, name) && StartsSubmit(At(w, events, i), call, id)
    && forall k :: i < k < n ==> !Disturbs(events[k], call)
  }

  lemma {:induction false} AskedBy(w: World, events: seq<Event>, n: nat, id: string, name: ProviderName)
    requires Initial(w) && n <= |events|
    ensures WasAsked(At(w, events, n), id, name) <==> exists i, j :: j < n && Reaches(w, events, i, j, id, name)
  {
    hide Step, At, StartsSubmit, WasAsked, Reaches;
    if n == 0 {
      AtEnds(w, events);
      NoneAsked(w, id, name);
      ReachesLater(w, events, id, name);
    } else {
      AskedBy(w, events, n - 1, id, name);
      AtNext(w, events, n - 1);
      var before, e := At(w, events, n - 1), events[n - 1];
      StepSubmitting(before, e, 0, id, name);
      AskedNow(w, events, n - 1, id, name);
    }
  }

  lemma NoneAsked(w: World, id: string, name: ProviderName)
    requires w.asked == []
    ensures !WasAsked(w, id, name)
  {
  }

  lemma ReachesLater(w: World, events: seq<Event>, id: string, name: ProviderName)
    ensures forall i, j :: Reaches(w, events, i, j, id, name) ==> 0 < j
  {
  }

  /** The event at `j` asks the provider exactly when some try reaches it there. */
  lemma AskedNow(w: World, events: seq<Event>, j: nat, id: string, name: ProviderName)
    requires Initial(w) && j < |events|
    ensures var now, e := At(w, events, j), events[j];
      (e.CallSubmit? && e.call in now.calls && now.calls[e.call].Submitting?
        && now.calls[e.call].id == id && now.calls[e.call].name == name)
      <==> exists i :: Reaches(w, events, i, j, id, name)
  {
    hide At, Step, StartsSubmit, Consistent;
    var now, e := At(w, events, j), events[j];
    if e.CallSubmit? {
      Unfold(w, events, j);
      RunKeeps(w, events[..j]);
      KeyOfCall(now, e.call);
      WaitingSince(w, events, j, e.call, id, name);
      forall i ensures StartedAt(w, events, i, j, e.call, id, name) <==> Reaches(w, events, i, j, id, name) {
      }
    }
  }

  lemma KeyOfCall(w: World, call: nat)
    requires Consistent(w)
    ensures call in w.calls && w.calls[call].Submitting? ==>
      Waits(w, call, w.calls[call].id, w.calls[call].name)
  {
    if call in w.calls { assert CallOk(w.db.requests, w.calls[call]); }
  }

  /** A provider is asked about a request exactly when some try that names it passed the
      guard and lived to make its call: nothing else keeps a second provider away. */
  lemma AskedExactly(w: World, events: seq<Event>, id: string, name: ProviderName)
    requires Initial(w)
    ensures WasAsked(Run(w, events), id, name) <==> exists i, j :: Reaches(w, events, i, j, id, name)
  {
    hide Step, At, StartsSubmit, WasAsked;
    AtEnds(w, events);
    AskedBy(w, events, |events|, id, name);
  }

  /** Only one provider is asked exactly when no two tries that name different ones both
      pass the guard and live to make their call. */
  lemma OneProviderAsked(w: World, events: seq<Event>, id: string)
    requires Initial(w)
    ensures !(WasAsked(Run(w, events), id, Mock) && WasAsked(Run(w, events), id, Manual)) <==>
      !((exists i, j :: Reaches(w, events, i, j, id, Mock)) && exists i, j :: Reaches(w, events, i, j, id, Manual))
  {
    hide Step, At, StartsSubmit, WasAsked, Reaches;
    AskedExactly(w, events, id, Mock);
    AskedExactly(w, events, id, Manual);
  }

  /** In any world where the guard passes, it passes twice: two tries, whatever providers
      they name and whatever processes make them, both reach their provider. */
  lemma BothAsked(w: World, id: string, a: nat, b: nat, one: ProviderName, other: ProviderName,
                  p: nat, q: nat, now: int, later: int)
    requires a != b && StartsSubmit(w, a, id) && b !in w.calls
    ensures var started := Step(Step(w, StartSubmit(a, id, one)), StartSubmit(b, id, other));
      var asked := Step(Step(started, CallSubmit(a, p, now)), CallSubmit(b, q, later)).asked;
      && |asked| == |w.asked| + 2 && asked[..|w.asked|] == w.asked
      && asked[|w.asked|].id == asked[|w.asked| + 1].id == id
      && asked[|w.asked|].name == one && asked[|w.asked| + 1].name == other
  {
    hide Key, SubmitTo;
  }
}
