/** What holds over every run of the realtime client. */
module RealtimeRuns {
  import opened Options
  import opened RealtimeClient

  /** The client after the first `n` inputs. */
  function At(inputs: seq<Input>, n: nat): Client
    requires n <= |inputs|
  {
    if n == 0 then FRESH else Handle(At(inputs, n - 1), inputs[n - 1]).0
  }

  function EffectsAt(inputs: seq<Input>, i: nat): seq<Effect>
    requires i < |inputs|
  {
    Handle(At(inputs, i), inputs[i]).1
  }

  // ---- Sequences ---------------------------------------------------------

  /** A valid frame of a channel arrives. */
  predicate Arrives(input: Input, ch: Channel) {
    && input.FrameArrived? && input.envelope.Some?
    && input.envelope.value.validPayload && input.envelope.value.channel == Some(ch)
  }

  /** The sequence handed to the listeners for a channel, if this input does so. */
  function Delivery(inputs: seq<Input>, i: nat, ch: Channel): Option<int>
    requires i < |inputs|
  {
    if Arrives(inputs[i], ch) && Delivered(inputs[i].envelope.value) in EffectsAt(inputs, i)
    then Some(inputs[i].envelope.value.sequence) else None
  }

  /** A frame that skips ahead. */
  predicate Gap(inputs: seq<Input>, i: nat, ch: Channel)
    requires i < |inputs|
  {
    var last := At(inputs, i).lastSequence;
    Arrives(inputs[i], ch) && ch in last && inputs[i].envelope.value.sequence > last[ch] + 1
  }

  /** The inputs after which a channel is tracked afresh: a new socket, a resync that
      names it, a detected gap, a close. */
  predicate Resets(inputs: seq<Input>, i: nat, ch: Channel)
    requires i < |inputs|
  {
    || inputs[i].SocketOpened? || inputs[i].LooseOpened?
    || inputs[i].CloseCalled?
    || (inputs[i].ResyncCalled? && ch in inputs[i].channels)
    || Gap(inputs, i, ch)
  }

  function Deliveries(inputs: seq<Input>, i: nat, j: nat, ch: Channel): nat
    requires i <= j <= |inputs|
    decreases j
  {
    if i == j then 0 else
      Deliveries(inputs, i, j - 1, ch) + (if Delivery(inputs, j - 1, ch).Some? then 1 else 0)
  }

  ghost predicate Undisturbed(inputs: seq<Input>, i: nat, j: nat, ch: Channel)
    requires i <= j <= |inputs|
  {
    forall k :: i <= k < j ==> !Resets(inputs, k, ch)
  }

  lemma DeliveryIsTracked(inputs: seq<Input>, i: nat, ch: Channel)
    requires i < |inputs| && Delivery(inputs, i, ch).Some?
    ensures var after := At(inputs, i + 1).lastSequence;
      ch in after && after[ch] == Delivery(inputs, i, ch).value
  {
  }

  /** One input, seen from a channel that is being tracked. */
  lemma TrackedStep(inputs: seq<Input>, i: nat, ch: Channel)
    requires i < |inputs| && ch in At(inputs, i).lastSequence && !Resets(inputs, i, ch)
    ensures var last, after := At(inputs, i).lastSequence[ch], At(inputs, i + 1).lastSequence;
      ch in after &&
      match Delivery(inputs, i, ch)
      case Some(s) => s == last + 1 && after[ch] == s
      case None => after[ch] == last
  {
    hide Schedule;
    LostKeepsSequences(At(inputs, i));
  }

  lemma LostKeepsSequences(c: Client)
    ensures Lost(c).0.lastSequence == c.lastSequence
    ensures forall d: Client :: Lost(d).0.lastSequence == d.lastSequence
  {
  }

  /** Between two resets of a channel the sequences delivered on it are consecutive:
      counted from any delivery, the n-th one after it carries a sequence n higher. */
  lemma {:induction false} Consecutive(inputs: seq<Input>, i: nat, j: nat, ch: Channel)
    requires i < j <= |inputs| && Delivery(inputs, i, ch).Some?
    requires Undisturbed(inputs, i + 1, j, ch)
    ensures var first, last := Delivery(inputs, i, ch).value, At(inputs, j).lastSequence;
      ch in last && last[ch] == first + Deliveries(inputs, i + 1, j, ch)
    ensures Delivery(inputs, j - 1, ch).Some? ==>
      Delivery(inputs, j - 1, ch).value == Delivery(inputs, i, ch).value + Deliveries(inputs, i + 1, j, ch)
    decreases j
  {
    hide At, Delivery, Resets;
    if j == i + 1 {
      DeliveryIsTracked(inputs, i, ch);
    } else {
      Consecutive(inputs, i, j - 1, ch);
      TrackedStep(inputs, j - 1, ch);
    }
  }

  /** A gap delivers nothing, forgets the channel, and asks for it once if the held
      socket is open: frames only arrive on open sockets, so in a possible run without
      an open loose socket the request is always sent. */
  lemma GapEffects(inputs: seq<Input>, i: nat, ch: Channel)
    requires i < |inputs| && Gap(inputs, i, ch)
    ensures Delivery(inputs, i, ch) == None
    ensures ch !in At(inputs, i + 1).lastSequence
    ensures EffectsAt(inputs, i) ==
      [Emitted(ShownResyncing)] + (if At(inputs, i).socket == Some(Open) then [SentSubscribe({ch})] else [])
    ensures PossibleRun(inputs) && At(inputs, i).loose.open == 0 ==>
      EffectsAt(inputs, i) == [Emitted(ShownResyncing), SentSubscribe({ch})]
  {
  }

  /** After a delivery, as long as the channel is not reset and no valid frame goes
      beyond it, the first valid frame that does is either the very next one and is
      delivered, or a gap.  So a frame lost or dropped on the way is always noticed. */
  lemma {:induction false} NextHigherFrame(inputs: seq<Input>, i: nat, j: nat, ch: Channel)
    requires i < j < |inputs| && Delivery(inputs, i, ch).Some?
    requires Undisturbed(inputs, i + 1, j, ch)
    requires forall k :: i < k < j && Arrives(inputs[k], ch) ==>
      inputs[k].envelope.value.sequence <= Delivery(inputs, i, ch).value
    requires Arrives(inputs[j], ch) && inputs[j].envelope.value.sequence > Delivery(inputs, i, ch).value
    ensures var next, previous := inputs[j].envelope.value.sequence, Delivery(inputs, i, ch).value;
      && (next == previous + 1 ==> Delivery(inputs, j, ch) == Some(next))
      && (next != previous + 1 ==> Gap(inputs, j, ch))
  {
    StillAt(inputs, i, j, ch);
  }

  lemma {:induction false} StillAt(inputs: seq<Input>, i: nat, j: nat, ch: Channel)
    requires i < j < |inputs| && Delivery(inputs, i, ch).Some?
    requires Undisturbed(inputs, i + 1, j, ch)
    requires forall k :: i < k < j && Arrives(inputs[k], ch) ==>
      inputs[k].envelope.value.sequence <= Delivery(inputs, i, ch).value
    ensures var last := At(inputs, j).lastSequence; ch in last && last[ch] == Delivery(inputs, i, ch).value
    decreases j
  {
    if j == i + 1 {
      DeliveryIsTracked(inputs, i, ch);
    } else {
      StillAt(inputs, i, j - 1, ch);
      TrackedStep(inputs, j - 1, ch);
    }
  }

  // ---- Reconnection ------------------------------------------------------

  function Log(inputs: seq<Input>, n: nat): seq<Effect>
    requires n <= |inputs|
  {
    if n == 0 then [] else Log(inputs, n - 1) + EffectsAt(inputs, n - 1)
  }

  /** Timers armed and neither fired nor cleared. */
  function ArmedTimers(log: seq<Effect>): set<nat> {
    if log == [] then {} else ArmedAfter(ArmedTimers(log[..|log| - 1]), log[|log| - 1])
  }

  function ArmedAfter(before: set<nat>, e: Effect): set<nat> {
    if e.Armed? then before + {e.timer}
    else if e.Cleared? || e.Fired? then before - {e.timer}
    else before
  }

  /** Reconnections scheduled since a socket last opened. */
  function Failures(log: seq<Effect>): nat {
    if log == [] then 0 else FailuresAfter(Failures(log[..|log| - 1]), log[|log| - 1])
  }

  function FailuresAfter(before: nat, e: Effect): nat {
    if e.Armed? then before + 1 else if e.SocketOpenNotified? then 0 else before
  }

  /** The world: a timer fires only while armed, a call of connect comes back only while
      one is waiting, and sockets open, speak and close only as they can. */
  predicate Possible(c: Client, armed: set<nat>, input: Input) {
    match input
    case TimerFired(t) => t in armed
    case TokenArrived(_) => c.pendingTokens > 0
    case TokenFailed => c.pendingTokens > 0
    case SocketRefused => c.pendingTokens > 0
    case SocketOpened => c.socket == Some(Connecting)
    case LooseOpened => c.loose.connecting > 0
    case FrameArrived(_) => c.socket == Some(Open) || c.loose.open > 0
    case SocketClosed => Live(c)
    case LooseClosed(kind) => CountOf(c.loose, kind) > 0
    case _ => true
  }

  ghost predicate PossibleRun(inputs: seq<Input>) {
    forall i :: 0 <= i < |inputs| ==> Possible(At(inputs, i), ArmedTimers(Log(inputs, i)), inputs[i])
  }

  /** The armed timers are the one the client remembers, and its attempt counter is
      the number of failures. */
  ghost predicate InStep(c: Client, log: seq<Effect>) {
    && ArmedTimers(log) == (if c.reconnectTimer.None? then {} else {c.reconnectTimer.value})
    && c.reconnectAttempt == Failures(log)
    && (forall t :: t in ArmedTimers(log) ==> t < c.nextTimer)
  }

  /** Every delay in the log is the one its failure count fixes. */
  ghost predicate DelaysRight(log: seq<Effect>) {
    forall p :: 0 <= p < |log| && log[p].Armed? ==> log[p].delay == Delay(Failures(log[..p]))
  }

  lemma AppendEffect(log: seq<Effect>, e: Effect)
    ensures ArmedTimers(log + [e]) == ArmedAfter(ArmedTimers(log), e)
    ensures Failures(log + [e]) == FailuresAfter(Failures(log), e)
    ensures DelaysRight(log) && (e.Armed? ==> e.delay == Delay(Failures(log))) ==> DelaysRight(log + [e])
  {
    assert (log + [e])[..|log|] == log;
    if DelaysRight(log) && (e.Armed? ==> e.delay == Delay(Failures(log))) {
      forall p | 0 <= p < |log + [e]| && (log + [e])[p].Armed?
        ensures (log + [e])[p].delay == Delay(Failures((log + [e])[..p]))
      {
        assert (log + [e])[..p] == log[..p];
      }
    }
  }

  /** Effects that neither touch a timer nor mark an opened socket. */
  predicate Neutral(e: Effect) {
    !e.Armed? && !e.Cleared? && !e.Fired? && !e.SocketOpenNotified?
  }

  lemma {:induction false} AppendNeutral(log: seq<Effect>, es: seq<Effect>)
    requires forall e :: e in es ==> Neutral(e)
    ensures ArmedTimers(log + es) == ArmedTimers(log) && Failures(log + es) == Failures(log)
    ensures DelaysRight(log) ==> DelaysRight(log + es)
    decreases |es|
  {
    if es == [] {
      assert log + es == log;
    } else {
      var init, e := es[..|es| - 1], es[|es| - 1];
      assert Neutral(e);
      AppendNeutral(log, init);
      AppendEffect(log + init, e);
      assert log + es == log + init + [e];
    }
  }

  ghost predicate Good(c: Client, log: seq<Effect>) {
    InStep(c, log) && DelaysRight(log)
  }

  lemma LostKeeps(c: Client, log: seq<Effect>)
    requires Good(c, log)
    ensures Good(Lost(c).0, log + Lost(c).1)
  {
    hide DelaysRight, ArmedTimers, Failures;
    AppendEffect(log, Emitted(ShownClosed));
    if !c.closedByCaller && c.reconnectTimer.None? {
      var shown := log + [Emitted(ShownClosed)];
      AppendEffect(shown, Armed(c.nextTimer, Delay(c.reconnectAttempt)));
      assert log + Lost(c).1 == shown + [Armed(c.nextTimer, Delay(c.reconnectAttempt))];
    } else {
      assert log + Lost(c).1 == log + [Emitted(ShownClosed)];
    }
  }

  lemma OpenKeeps(c: Client, log: seq<Effect>)
    requires Good(c, log)
    ensures Good(Opened(c).0, log + Opened(c).1)
  {
    hide DelaysRight, ArmedTimers, Failures;
    var es := Opened(c).1;
    var init := es[..|es| - 1];
    AppendNeutral(log, init);
    AppendEffect(log + init, SocketOpenNotified);
    assert log + es == log + init + [SocketOpenNotified];
  }

  lemma HandleKeeps(c: Client, log: seq<Effect>, input: Input)
    requires Good(c, log) && Possible(c, ArmedTimers(log), input)
    ensures Good(Handle(c, input).0, log + Handle(c, input).1)
  {
    hide DelaysRight, Lost, Opened, Schedule, ArmedTimers, Failures, Put, Take;
    match input
    case TokenArrived(present) =>
      if present { AppendNeutral(log, Handle(c, input).1); } else { LostKeeps(Resumed(c), log); }
    case SocketOpened => OpenKeeps(c.(socket := Some(Open)), log);
    case LooseOpened => OpenKeeps(c.(loose := Put(Take(c.loose, ConnectingSocket), OpenSocket)), log);
    case SocketClosed => LostKeeps(c.(socket := Some(Closed)), log);
    case LooseClosed(kind) => LostKeeps(c.(loose := Take(c.loose, kind)), log);
    case TimerFired(t) => AppendEffect(log, Fired(t));
    case CloseCalled =>
      if c.reconnectTimer.Some? { AppendEffect(log, Cleared(c.reconnectTimer.value)); }
      else { AppendNeutral(log, []); }
    case _ => AppendNeutral(log, Handle(c, input).1);
  }

  /** In every possible run at most one reconnect timer is armed at any moment, and
      each was armed with the delay fixed by the failures since a socket last opened. */
  lemma {:induction false} TimersUnderControl(inputs: seq<Input>, n: nat)
    requires PossibleRun(inputs) && n <= |inputs|
    ensures Good(At(inputs, n), Log(inputs, n))
    ensures |ArmedTimers(Log(inputs, n))| <= 1
  {
    hide Good, Handle, Possible;
    if n == 0 {
      NoneArmed();
    } else {
      TimersUnderControl(inputs, n - 1);
      HandleKeeps(At(inputs, n - 1), Log(inputs, n - 1), inputs[n - 1]);
    }
    AtMostOne(At(inputs, n), Log(inputs, n));
  }

  lemma NoneArmed()
    ensures Good(FRESH, [])
  {
  }

  lemma AtMostOne(c: Client, log: seq<Effect>)
    requires Good(c, log)
    ensures |ArmedTimers(log)| <= 1
  {
  }

  // ---- Stuck -------------------------------------------------------------

  /** Something is under way that will bring the connection about or end it. */
  predicate Underway(c: Client) {
    c.pendingTokens > 0 || c.reconnectTimer.Some? || Live(c) || c.loose != NONE_LOOSE
  }

  /** The caller wants a connection, and nothing will ever happen unless it calls. */
  predicate Stuck(c: Client) {
    !c.closedByCaller && !Underway(c)
  }

  /** A call of connect that throws instead of arming a timer. */
  predicate Throws(input: Input) {
    input.TokenFailed? || input.SocketRefused?
  }

  /** The only thing under way is one call of connect. */
  predicate OnlyConnect(c: Client) {
    c.pendingTokens == 1 && c.reconnectTimer.None? && !Live(c) && c.loose == NONE_LOOSE
  }

  /** Connect threw at `k` with nothing else under way, and since then the caller has
      neither connected nor closed. */
  ghost predicate StuckSince(inputs: seq<Input>, k: int, n: nat)
    requires n <= |inputs|
  {
    && 0 <= k < n && Throws(inputs[k]) && OnlyConnect(At(inputs, k)) && !At(inputs, k).closedByCaller
    && forall m :: k < m < n ==> !inputs[m].ConnectCalled? && !inputs[m].CloseCalled?
  }

  ghost predicate StuckByThrow(inputs: seq<Input>, n: nat)
    requires n <= |inputs|
  {
    exists k :: StuckSince(inputs, k, n)
  }

  lemma StepStuck(c: Client, armed: set<nat>, input: Input)
    requires Possible(c, armed, input) && (input.TimerFired? ==> c.reconnectTimer.Some?)
    ensures Stuck(Handle(c, input).0) <==>
      || (Throws(input) && OnlyConnect(c) && !c.closedByCaller)
      || (Stuck(c) && !input.ConnectCalled? && !input.CloseCalled?)
  {
    hide Frame, Transmit;
    FrameLeaves(c, input);
  }

  lemma FrameLeaves(c: Client, input: Input)
    ensures input.FrameArrived? && input.envelope.Some? ==>
      var d := Frame(c, input.envelope.value).0; d == c.(lastSequence := d.lastSequence)
  {
  }

  lemma TimerIsHeld(inputs: seq<Input>, n: nat)
    requires PossibleRun(inputs) && n < |inputs| && inputs[n].TimerFired?
    ensures At(inputs, n).reconnectTimer == Some(inputs[n].timer)
  {
    hide At, Log, ArmedTimers;
    TimersUnderControl(inputs, n);
    assert Possible(At(inputs, n), ArmedTimers(Log(inputs, n)), inputs[n]);
  }

  /** A client is stuck exactly when a call of connect threw while it was all there was
      under way, and the caller has neither connected nor closed since. */
  lemma {:induction false} StuckExactly(inputs: seq<Input>, n: nat)
    requires PossibleRun(inputs) && n <= |inputs|
    requires exists k :: 0 <= k < n && (inputs[k].ConnectCalled? || inputs[k].CloseCalled?)
    ensures Stuck(At(inputs, n)) <==> StuckByThrow(inputs, n)
  {
    hide At, Log, ArmedTimers, Handle, Stuck, OnlyConnect, Possible, StuckByThrow;
    var c, input := At(inputs, n - 1), inputs[n - 1];
    AtStep(inputs, n - 1);
    if input.TimerFired? { TimerIsHeld(inputs, n - 1); }
    assert Possible(c, ArmedTimers(Log(inputs, n - 1)), input);
    StepStuck(c, ArmedTimers(Log(inputs, n - 1)), input);
    if exists k :: 0 <= k < n - 1 && (inputs[k].ConnectCalled? || inputs[k].CloseCalled?) {
      StuckExactly(inputs, n - 1);
      StuckOn(inputs, n - 1);
    } else {
      assert input.ConnectCalled? || input.CloseCalled?;
      NotYetStuck(inputs, n);
    }
  }

  /** Being stuck after the input at `n`, told from being stuck before it. */
  lemma StuckOn(inputs: seq<Input>, n: nat)
    requires n < |inputs|
    ensures StuckByThrow(inputs, n + 1) <==>
      || (Throws(inputs[n]) && OnlyConnect(At(inputs, n)) && !At(inputs, n).closedByCaller)
      || (StuckByThrow(inputs, n) && !inputs[n].ConnectCalled? && !inputs[n].CloseCalled?)
  {
    hide At, OnlyConnect;
    var after := n + 1;
    if k :| StuckSince(inputs, k, after) {
      if k < n { assert StuckSince(inputs, k, n); }
    }
    if Throws(inputs[n]) && OnlyConnect(At(inputs, n)) && !At(inputs, n).closedByCaller {
      assert StuckSince(inputs, n, after);
    }
    if k :| StuckSince(inputs, k, n) {
      assert !inputs[n].ConnectCalled? && !inputs[n].CloseCalled? ==> StuckSince(inputs, k, after);
    }
  }

  lemma NotYetStuck(inputs: seq<Input>, n: nat)
    requires 0 < n <= |inputs| && (inputs[n - 1].ConnectCalled? || inputs[n - 1].CloseCalled?)
    ensures !StuckByThrow(inputs, n)
  {
    hide At, OnlyConnect;
    forall k ensures !StuckSince(inputs, k, n) {
    }
  }

  /** While connect never throws as the last thing under way, a client that the caller
      has not closed always has a socket, a token on its way or a timer armed: no loss of
      a socket and no missing token leaves it waiting for ever. */
  lemma NeverStuck(inputs: seq<Input>, n: nat)
    requires PossibleRun(inputs) && n <= |inputs|
    requires exists k :: 0 <= k < n && (inputs[k].ConnectCalled? || inputs[k].CloseCalled?)
    requires forall k :: 0 <= k < n && Throws(inputs[k]) ==> !OnlyConnect(At(inputs, k))
    ensures At(inputs, n).closedByCaller || Underway(At(inputs, n))
  {
    hide At, OnlyConnect, Possible;
    StuckExactly(inputs, n);
  }

  /** And a stuck client hears of nothing but its caller's calls. */
  lemma StuckHearsNothing(inputs: seq<Input>, n: nat)
    requires PossibleRun(inputs) && n < |inputs| && Stuck(At(inputs, n))
    ensures inputs[n].ConnectCalled? || inputs[n].CloseCalled? || inputs[n].SubscribeCalled?
         || inputs[n].ResyncCalled? || inputs[n].UnsubscribeCalled?
  {
    hide At, Log, ArmedTimers;
    if inputs[n].TimerFired? { TimerIsHeld(inputs, n); }
    assert Possible(At(inputs, n), ArmedTimers(Log(inputs, n)), inputs[n]);
  }

  /** The shortest such run: one connect whose token promise rejects. */
  lemma ConnectThatThrows()
    ensures var run := [ConnectCalled, TokenFailed]; PossibleRun(run) && Stuck(At(run, 2))
  {
    var run := [ConnectCalled, TokenFailed];
    assert At(run, 0) == FRESH;
    assert At(run, 1) == Handle(FRESH, ConnectCalled).0;
    assert At(run, 2) == Handle(At(run, 1), TokenFailed).0;
  }

  // ---- More than one socket ----------------------------------------------

  /** The sockets that are connecting or open. */
  function Sockets(c: Client): nat {
    (if Live(c) then 1 else 0) + c.loose.connecting + c.loose.open
  }

  /** The sockets there are or may be, each from a token or a timer of its own. */
  function Ways(c: Client): nat {
    Sockets(c) + c.pendingTokens + (if c.reconnectTimer.Some? then 1 else 0)
  }

  /** All that happens without the caller connecting again, and before the close of a
      socket the caller closed is reported. */
  predicate Unprompted(input: Input) {
    !input.ConnectCalled? && input != LooseClosed(ClosingSocket)
  }

  lemma StepSockets(c: Client, armed: set<nat>, input: Input)
    requires Possible(c, armed, input) && (input.TimerFired? ==> c.reconnectTimer.Some?)
    ensures Sockets(Handle(c, input).0) == Sockets(c) + 1 <==> input == TokenArrived(true)
    ensures Sockets(Handle(c, input).0) <= Sockets(c) + 1
    ensures Unprompted(input) ==> Ways(Handle(c, input).0) <= Ways(c)
  {
    hide Frame, Transmit;
    FrameLeaves(c, input);
  }

  predicate TwoSockets(inputs: seq<Input>, m: int) {
    0 <= m <= |inputs| && Sockets(At(inputs, m)) >= 2
  }

  predicate TokenBeside(inputs: seq<Input>, k: int) {
    0 <= k < |inputs| && inputs[k] == TokenArrived(true) && Sockets(At(inputs, k)) >= 1
  }

  /** A second live socket arises exactly when a token arrives while there is one. */
  lemma {:induction false} SecondSocketExactly(inputs: seq<Input>, n: nat)
    requires PossibleRun(inputs) && n <= |inputs|
    ensures (exists m :: m <= n && TwoSockets(inputs, m)) <==> exists k :: k < n && TokenBeside(inputs, k)
  {
    hide TwoSockets, TokenBeside;
    NextTwo(inputs, n);
    if n > 0 {
      SecondSocketExactly(inputs, n - 1);
    } else {
      FirstTwo(inputs);
    }
  }

  lemma FirstTwo(inputs: seq<Input>)
    ensures !TwoSockets(inputs, 0)
    ensures forall m :: m < 0 ==> !TwoSockets(inputs, m) && !TokenBeside(inputs, m)
  {
  }

  lemma NextTwo(inputs: seq<Input>, n: nat)
    requires PossibleRun(inputs) && n <= |inputs|
    ensures n > 0 ==> (TwoSockets(inputs, n) ==> TwoSockets(inputs, n - 1) || TokenBeside(inputs, n - 1))
    ensures n > 0 ==> (TokenBeside(inputs, n - 1) ==> TwoSockets(inputs, n))
  {
    hide At, Log, ArmedTimers, Handle, Sockets, Possible;
    if n > 0 {
      var c, input := At(inputs, n - 1), inputs[n - 1];
      AtStep(inputs, n - 1);
      if input.TimerFired? { TimerIsHeld(inputs, n - 1); }
      assert Possible(c, ArmedTimers(Log(inputs, n - 1)), input);
      StepSockets(c, ArmedTimers(Log(inputs, n - 1)), input);
    }
  }

  /** Without the caller's help the sockets there may be never become more. */
  lemma {:induction false} WaysBound(inputs: seq<Input>, m: nat, n: nat)
    requires PossibleRun(inputs) && m <= n <= |inputs|
    requires forall k :: m <= k < n ==> Unprompted(inputs[k])
    ensures Ways(At(inputs, n)) <= Ways(At(inputs, m))
    decreases n
  {
    hide Log, ArmedTimers, Handle, Sockets, Ways, Possible;
    if m < n {
      WaysBound(inputs, m, n - 1);
      var c, input := At(inputs, n - 1), inputs[n - 1];
      if input.TimerFired? { TimerIsHeld(inputs, n - 1); }
      assert Possible(c, ArmedTimers(Log(inputs, n - 1)), input);
      StepSockets(c, ArmedTimers(Log(inputs, n - 1)), input);
    }
  }

  /** A run that goes on from here without the caller's help, to two live sockets. */
  ghost predicate LeadsToTwo(inputs: seq<Input>, more: seq<Input>) {
    && PossibleRun(inputs + more) && (forall k :: 0 <= k < |more| ==> Unprompted(more[k]))
    && Sockets(At(inputs + more, |inputs + more|)) >= 2
  }

  lemma {:induction false} AtExtended(inputs: seq<Input>, more: seq<Input>, n: nat)
    requires n <= |inputs|
    ensures At(inputs + more, n) == At(inputs, n) && Log(inputs + more, n) == Log(inputs, n)
  {
    if n > 0 { AtExtended(inputs, more, n - 1); }
  }

  lemma AtStep(inputs: seq<Input>, n: nat)
    requires n < |inputs|
    ensures At(inputs, n + 1) == Handle(At(inputs, n), inputs[n]).0
  {
    hide Handle;
  }

  lemma PossibleExtended(inputs: seq<Input>, input: Input)
    requires PossibleRun(inputs)
    requires Possible(At(inputs, |inputs|), ArmedTimers(Log(inputs, |inputs|)), input)
    ensures PossibleRun(inputs + [input])
    ensures At(inputs + [input], |inputs + [input]|) == Handle(At(inputs, |inputs|), input).0
  {
    hide At, Log, Possible, ArmedTimers, Handle;
    var all := inputs + [input];
    forall i | 0 <= i < |all|
      ensures Possible(At(all, i), ArmedTimers(Log(all, i)), all[i])
    {
      AtExtended(inputs, [input], i);
    }
    AtExtended(inputs, [input], |inputs|);
    AtStep(all, |inputs|);
  }

  /** Every call of connect that is waiting may end in a socket of its own. */
  lemma {:induction false} TokensBecomeSockets(inputs: seq<Input>) returns (more: seq<Input>)
    requires PossibleRun(inputs)
    requires var c := At(inputs, |inputs|); Sockets(c) + c.pendingTokens >= 2
    ensures LeadsToTwo(inputs, more)
    decreases At(inputs, |inputs|).pendingTokens
  {
    hide At, Log, ArmedTimers;
    var c := At(inputs, |inputs|);
    if Sockets(c) >= 2 {
      more := [];
      assert inputs + [] == inputs;
    } else {
      var next := inputs + [TokenArrived(true)];
      PossibleExtended(inputs, TokenArrived(true));
      var rest := TokensBecomeSockets(next);
      more := [TokenArrived(true)] + rest;
      LeadsFrom(inputs, TokenArrived(true), rest);
    }
  }

  /** First the timer, if one is armed, then the tokens. */
  lemma TwoAhead(inputs: seq<Input>) returns (more: seq<Input>)
    requires PossibleRun(inputs) && Ways(At(inputs, |inputs|)) >= 2
    ensures LeadsToTwo(inputs, more)
  {
    hide At, Log, ArmedTimers, LeadsToTwo;
    var c := At(inputs, |inputs|);
    if c.reconnectTimer.Some? {
      var fire := TimerFired(c.reconnectTimer.value);
      TimersUnderControl(inputs, |inputs|);
      PossibleExtended(inputs, fire);
      var rest := TokensBecomeSockets(inputs + [fire]);
      more := [fire] + rest;
      LeadsFrom(inputs, fire, rest);
    } else {
      more := TokensBecomeSockets(inputs);
    }
  }

  lemma LeadsFrom(inputs: seq<Input>, input: Input, rest: seq<Input>)
    requires LeadsToTwo(inputs + [input], rest) && Unprompted(input)
    ensures LeadsToTwo(inputs, [input] + rest)
  {
    hide At, Log, ArmedTimers, PossibleRun, Sockets;
    assert (inputs + [input]) + rest == inputs + ([input] + rest);
  }

  lemma NotTwoAhead(inputs: seq<Input>, more: seq<Input>)
    requires PossibleRun(inputs) && LeadsToTwo(inputs, more)
    ensures Ways(At(inputs, |inputs|)) >= 2
  {
    hide At, Log, ArmedTimers, PossibleRun;
    AtExtended(inputs, more, |inputs|);
    var all := inputs + more;
    assert forall k :: |inputs| <= k < |all| ==> all[k] == more[k - |inputs|];
    WaysBound(all, |inputs|, |all|);
  }

  /** Two live sockets can still come about without the caller's help exactly when more
      than one of them, a token and a timer are there already: a caller that connects
      while a timer is armed, for one, gets two. */
  lemma SecondSocketAhead(inputs: seq<Input>)
    requires PossibleRun(inputs)
    ensures (exists more :: LeadsToTwo(inputs, more)) <==> Ways(At(inputs, |inputs|)) >= 2
  {
    hide At, Ways, PossibleRun, LeadsToTwo;
    if Ways(At(inputs, |inputs|)) >= 2 {
      var more := TwoAhead(inputs);
    }
    if more :| LeadsToTwo(inputs, more) {
      NotTwoAhead(inputs, more);
    }
  }

  /** After a close no reconnect timer is armed until the caller connects again. */
  lemma {:induction false} CloseIsQuiet(inputs: seq<Input>, i: nat, n: nat)
    requires PossibleRun(inputs) && i < n <= |inputs| && inputs[i].CloseCalled?
    requires forall k :: i < k < n ==> !inputs[k].ConnectCalled?
    ensures Quiet(At(inputs, n)) && ArmedTimers(Log(inputs, n)) == {}
    decreases n
  {
    hide At, Log, ArmedTimers, Handle, DelaysRight, Possible;
    TimersUnderControl(inputs, n);
    AtStep(inputs, n - 1);
    if n > i + 1 {
      CloseIsQuiet(inputs, i, n - 1);
      if inputs[n - 1].TimerFired? { TimerIsHeld(inputs, n - 1); }
      StaysQuiet(At(inputs, n - 1), inputs[n - 1]);
    } else {
      StaysQuiet(At(inputs, i), inputs[i]);
    }
  }

  lemma StaysQuiet(c: Client, input: Input)
    ensures input.CloseCalled? ==> Quiet(Handle(c, input).0)
    ensures Quiet(c) && !input.ConnectCalled? && !input.TimerFired? ==> Quiet(Handle(c, input).0)
  {
  }

  predicate Quiet(c: Client) {
    c.closedByCaller && c.reconnectTimer.None?
  }
}
