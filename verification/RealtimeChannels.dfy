/** What the realtime client asks for, shows and hands on, in every run. */
module RealtimeChannels {
  import opened Options
  import opened RealtimeClient
  import opened RealtimeRuns

  // ---- Wanted and asked for ----------------------------------------------

  function WantedAfter(before: set<Channel>, input: Input): set<Channel> {
    match input
    case SubscribeCalled(channels) => before + channels
    case ResyncCalled(channels) => before + channels
    case UnsubscribeCalled(channels) => before - channels
    case _ => before
  }

  /** The channels named by a subscribe or a resync and not unsubscribed since. */
  function Wanted(inputs: seq<Input>, n: nat): set<Channel>
    requires n <= |inputs|
  {
    if n == 0 then {} else WantedAfter(Wanted(inputs, n - 1), inputs[n - 1])
  }

  /** The subscribes among some effects, in order. */
  function Subscribes(es: seq<Effect>): seq<set<Channel>> {
    if es == [] then [] else
      Subscribes(es[..|es| - 1]) + (if es[|es| - 1].SentSubscribe? then [es[|es| - 1].channels] else [])
  }

  /** What has been asked for once these effects were sent. */
  function AskedAfter(before: set<Channel>, es: seq<Effect>): set<Channel> {
    if es == [] then before else
      var asked, e := AskedAfter(before, es[..|es| - 1]), es[|es| - 1];
      if e.SentSubscribe? then asked + e.channels
      else if e.SentUnsubscribe? then asked - e.channels
      else asked
  }

  /** What the held socket has been asked for since it opened. */
  function Asked(inputs: seq<Input>, n: nat): set<Channel>
    requires n <= |inputs|
  {
    if n == 0 then {} else
      AskedAfter(if inputs[n - 1].SocketOpened? then {} else Asked(inputs, n - 1), EffectsAt(inputs, n - 1))
  }

  /** The channel of the gap that this input is, if it is one. */
  function Gaps(inputs: seq<Input>, n: nat): set<Channel>
    requires n < |inputs|
  {
    if inputs[n].FrameArrived? && inputs[n].envelope.Some? && inputs[n].envelope.value.channel.Some?
       && Gap(inputs, n, inputs[n].envelope.value.channel.value)
    then {inputs[n].envelope.value.channel.value} else {}
  }

  /** The channels of gaps since the held socket opened, noticed while they were not wanted
      and not unsubscribed since. */
  function Strays(inputs: seq<Input>, n: nat): set<Channel>
    requires n <= |inputs|
  {
    if n == 0 || inputs[n - 1].SocketOpened? then {}
    else if inputs[n - 1].UnsubscribeCalled? then Strays(inputs, n - 1) - inputs[n - 1].channels
    else Strays(inputs, n - 1) + (Gaps(inputs, n - 1) - Wanted(inputs, n - 1))
  }

  lemma LostKeepsWanted()
    ensures forall d: Client :: Lost(d).0.subscribed == d.subscribed && Lost(d).0.socket == d.socket
    ensures forall d: Client, e: Effect :: e in Lost(d).1 ==> !e.SentSubscribe? && !e.SentUnsubscribe?
  {
  }

  lemma {:induction false} SubscribedIsWanted(inputs: seq<Input>, n: nat)
    requires n <= |inputs|
    ensures At(inputs, n).subscribed == Wanted(inputs, n)
  {
    hide Lost, Frame;
    if n > 0 {
      SubscribedIsWanted(inputs, n - 1);
      LostKeepsWanted();
      FrameLeaves(At(inputs, n - 1), inputs[n - 1]);
    }
  }

  lemma AskedAppend(before: set<Channel>, es: seq<Effect>, e: Effect)
    ensures AskedAfter(before, es + [e]) ==
      (if e.SentSubscribe? then AskedAfter(before, es) + e.channels
       else if e.SentUnsubscribe? then AskedAfter(before, es) - e.channels
       else AskedAfter(before, es))
    ensures Subscribes(es + [e]) == Subscribes(es) + if e.SentSubscribe? then [e.channels] else []
  {
    assert (es + [e])[..|es|] == es;
  }

  /** Effects that send nothing ask for nothing. */
  lemma {:induction false} AskedNothing(before: set<Channel>, es: seq<Effect>)
    requires forall e :: e in es ==> !e.SentSubscribe? && !e.SentUnsubscribe?
    ensures AskedAfter(before, es) == before && Subscribes(es) == []
  {
    if es != [] {
      assert es[|es| - 1] in es;
      AskedNothing(before, es[..|es| - 1]);
    }
  }

  /** Effects of which the one in the middle, if any, is sent. */
  lemma AskedOnce(before: set<Channel>, a: Effect, sent: seq<Effect>, b: seq<Effect>)
    requires !a.SentSubscribe? && !a.SentUnsubscribe? && |sent| <= 1
    requires forall e :: e in b ==> !e.SentSubscribe? && !e.SentUnsubscribe?
    requires |b| <= 1
    ensures AskedAfter(before, [a] + sent + b) == AskedAfter(before, sent)
    ensures Subscribes([a] + sent + b) == Subscribes(sent)
  {
    AskedNothing(before, [a]);
    if sent == [] {
      assert [a] + sent == [a];
    } else {
      assert sent == [] + [sent[0]] && [a] + sent == [a] + [sent[0]];
      AskedAppend(before, [a], sent[0]);
      AskedAppend(before, [], sent[0]);
    }
    if b == [] {
      assert [a] + sent + b == [a] + sent;
    } else {
      assert [a] + sent + b == ([a] + sent) + [b[0]];
      assert b[0] in b;
      AskedAppend(before, [a] + sent, b[0]);
    }
  }

  lemma OneSent(before: set<Channel>, c: Client, channels: set<Channel>)
    ensures AskedAfter(before, Transmit(c, SentSubscribe(channels))) ==
            if c.socket == Some(Open) then before + channels else before
    ensures AskedAfter(before, Transmit(c, SentUnsubscribe(channels))) ==
            if c.socket == Some(Open) then before - channels else before
    ensures Subscribes(Transmit(c, SentSubscribe(channels))) == if c.socket == Some(Open) then [channels] else []
    ensures Subscribes(Transmit(c, SentUnsubscribe(channels))) == []
  {
    AskedAppend(before, [], SentSubscribe(channels));
    AskedAppend(before, [], SentUnsubscribe(channels));
    assert forall e: Effect :: [] + [e] == [e];
  }

  /** The socket that opened is asked for exactly the wanted channels, with one subscribe, if
      there are any; so is an open socket by the opening of another. */
  lemma OpenAsks(c: Client, before: set<Channel>)
    ensures Subscribes(Opened(c).1) == if c.subscribed != {} && c.socket == Some(Open) then [c.subscribed] else []
    ensures AskedAfter(before, Opened(c).1) == if c.socket == Some(Open) then before + c.subscribed else before
  {
    var d := Opened(c).0;
    var sent := if d.subscribed != {} then Transmit(d, SentSubscribe(d.subscribed)) else [];
    AskedOnce(before, Emitted(ShownOpen), sent, [SocketOpenNotified]);
    OneSent(before, d, d.subscribed);
  }

  /** One input, seen from what the held socket has been asked for. */
  lemma AskedStep(inputs: seq<Input>, n: nat, before: set<Channel>)
    requires n < |inputs|
    ensures var c, input, after := At(inputs, n), inputs[n], AskedAfter(before, EffectsAt(inputs, n));
      if input.SocketOpened? then after == before + c.subscribed
      else if c.socket != Some(Open) then after == before
      else if input.LooseOpened? then after == before + c.subscribed
      else if input.SubscribeCalled? || input.ResyncCalled? then after == before + input.channels
      else if input.UnsubscribeCalled? then after == before - input.channels
      else after == before + Gaps(inputs, n)
  {
    hide Lost, Opened, Put, Take, At, AskedAfter;
    var c, input := At(inputs, n), inputs[n];
    LostKeepsWanted();
    match input
    case SocketOpened => OpenAsks(c.(socket := Some(Open)), before);
    case LooseOpened => OpenAsks(c.(loose := Put(Take(c.loose, ConnectingSocket), OpenSocket)), before);
    case SubscribeCalled(channels) => OneSent(before, c.(subscribed := c.subscribed + channels), channels);
    case ResyncCalled(channels) =>
      var sent := Transmit(c, SentSubscribe(channels));
      AskedOnce(before, Emitted(ShownResyncing), sent, []);
      assert [Emitted(ShownResyncing)] + sent + [] == [Emitted(ShownResyncing)] + sent;
      OneSent(before, c, channels);
    case UnsubscribeCalled(channels) => OneSent(before, c, channels);
    case FrameArrived(_) =>
      if Gaps(inputs, n) != {} {
        var ch := input.envelope.value.channel.value;
        var sent := Transmit(c, SentSubscribe({ch}));
        AskedOnce(before, Emitted(ShownResyncing), sent, []);
        assert [Emitted(ShownResyncing)] + sent + [] == [Emitted(ShownResyncing)] + sent;
        OneSent(before, c, {ch});
      } else {
        AskedNothing(before, EffectsAt(inputs, n));
      }
    case _ => AskedNothing(before, EffectsAt(inputs, n));
  }

  /** In every run, whenever the held socket is open it has been asked for every
      wanted channel, and for no other but those of gaps noticed while they were not wanted. */
  lemma {:induction false} AskedExactly(inputs: seq<Input>, n: nat)
    requires n <= |inputs| && At(inputs, n).socket == Some(Open)
    ensures Asked(inputs, n) == Wanted(inputs, n) + Strays(inputs, n)
  {
    hide At, EffectsAt, AskedAfter, Gap;
    if n == 0 {
      NotOpenYet(inputs);
    } else {
      var input := inputs[n - 1];
      SubscribedIsWanted(inputs, n - 1);
      SocketStays(inputs, n - 1);
      if input.SocketOpened? {
        AskedStep(inputs, n - 1, {});
      } else {
        AskedExactly(inputs, n - 1);
        AskedStep(inputs, n - 1, Asked(inputs, n - 1));
      }
    }
  }

  lemma NotOpenYet(inputs: seq<Input>)
    ensures At(inputs, 0) == FRESH && FRESH.socket == None
  {
  }

  /** A held socket that is open now either opens with this input or was open before it. */
  lemma SocketStays(inputs: seq<Input>, n: nat)
    requires n < |inputs| && At(inputs, n + 1).socket == Some(Open)
    ensures inputs[n].SocketOpened? || At(inputs, n).socket == Some(Open)
  {
    hide Lost, Frame;
    LostKeepsWanted();
    FrameLeaves(At(inputs, n), inputs[n]);
  }

  /** Opening the held socket sends exactly one subscribe, for exactly the wanted channels, if
      there are any, and tells the listeners once. */
  lemma OpeningAsks(inputs: seq<Input>, i: nat)
    requires i < |inputs| && inputs[i].SocketOpened?
    ensures var es, wanted := EffectsAt(inputs, i), Wanted(inputs, i);
      && Subscribes(es) == (if wanted == {} then [] else [wanted])
      && es == [Emitted(ShownOpen)] + (if wanted == {} then [] else [SentSubscribe(wanted)]) + [SocketOpenNotified]
  {
    SubscribedIsWanted(inputs, i);
    OpenAsks(At(inputs, i).(socket := Some(Open)), {});
  }

  function FrameOf(ch: Channel, sequence: int): Input {
    FrameArrived(Some(Envelope(true, Some(ch), sequence, 0)))
  }

  /** A frame of a channel that is no longer wanted can still be a gap, and then the client
      asks for the channel again. */
  lemma StrayHappens(ch: Channel)
    ensures var run := [TokenArrived(true), SocketOpened, FrameOf(ch, 1), FrameOf(ch, 3)];
      Wanted(run, 4) == {} && Strays(run, 4) == {ch} && At(run, 4).socket == Some(Open)
  {
    hide Wanted, Strays, At;
    var run := [TokenArrived(true), SocketOpened, FrameOf(ch, 1), FrameOf(ch, 3)];
    StepsOf(run, 0);
    StepsOf(run, 1);
    StepsOf(run, 2);
    StepsOf(run, 3);
  }

  lemma StepsOf(run: seq<Input>, n: nat)
    requires n < |run|
    ensures Wanted(run, n + 1) == WantedAfter(Wanted(run, n), run[n])
    ensures At(run, n + 1) == Handle(At(run, n), run[n]).0
    ensures Wanted(run, 0) == {} && Strays(run, 0) == {} && At(run, 0) == FRESH
    ensures Strays(run, n + 1) ==
      if run[n].SocketOpened? then {}
      else if run[n].UnsubscribeCalled? then Strays(run, n) - run[n].channels
      else Strays(run, n) + (Gaps(run, n) - Wanted(run, n))
  {
    hide Handle, Gaps;
  }

  // ---- Handed on ----------------------------------------------------------

  /** A frame is handed to the listeners exactly if its payload is valid and it is either
      untracked, or the first of its channel, or the next one. */
  lemma HandsOnExactly(inputs: seq<Input>, i: nat, x: Envelope)
    requires i < |inputs|
    ensures var last, es := At(inputs, i).lastSequence, EffectsAt(inputs, i);
      && (Delivered(x) in es <==>
            && inputs[i] == FrameArrived(Some(x)) && x.validPayload
            && (x.channel.None? || x.channel.value !in last || x.sequence == last[x.channel.value] + 1))
      && forall p, q :: 0 <= p < q < |es| ==> !(es[p].Delivered? && es[q].Delivered?)
  {
    hide Put, Take;
  }

  /** A channel that is tracked afresh and has had no frame since hands its next valid frame
      on, whatever its sequence. */
  lemma {:induction false} FreshAfterReset(inputs: seq<Input>, i: nat, j: nat, ch: Channel)
    requires i < j < |inputs| && Resets(inputs, i, ch)
    requires forall k :: i < k < j ==> !Arrives(inputs[k], ch)
    requires Arrives(inputs[j], ch)
    ensures Delivery(inputs, j, ch) == Some(inputs[j].envelope.value.sequence)
  {
    Untracked(inputs, i, j, ch);
    HandsOnExactly(inputs, j, inputs[j].envelope.value);
  }

  lemma {:induction false} Untracked(inputs: seq<Input>, i: nat, j: nat, ch: Channel)
    requires i < j <= |inputs| && Resets(inputs, i, ch)
    requires forall k :: i < k < j ==> !Arrives(inputs[k], ch)
    ensures ch !in At(inputs, j).lastSequence
    decreases j
  {
    hide Lost;
    LostKeepsSequences(At(inputs, j - 1));
    if j > i + 1 { Untracked(inputs, i, j - 1, ch); }
  }

  // ---- Shown --------------------------------------------------------------

  /** The state that the listeners were last told. */
  function Shows(es: seq<Effect>): Option<Shown> {
    if es == [] then None
    else if es[|es| - 1].Emitted? then Some(es[|es| - 1].state)
    else Shows(es[..|es| - 1])
  }

  predicate Opens(input: Input) {
    input.SocketOpened? || input.LooseOpened?
  }

  predicate Breaks(input: Input) {
    input.SocketClosed? || input.LooseClosed? || input == TokenArrived(false)
  }

  predicate Tries(input: Input) {
    input == TokenArrived(true) || input.SocketRefused?
  }

  /** A tracked frame that is handed on. */
  predicate Flows(inputs: seq<Input>, i: nat)
    requires i < |inputs|
  {
    inputs[i].FrameArrived? && inputs[i].envelope.Some? && inputs[i].envelope.value.channel.Some?
    && Delivered(inputs[i].envelope.value) in EffectsAt(inputs, i)
  }

  /** What the listeners are to be told. */
  function Due(inputs: seq<Input>, i: nat): Option<Shown>
    requires i < |inputs|
  {
    if Opens(inputs[i]) || Flows(inputs, i) then Some(ShownOpen)
    else if Breaks(inputs[i]) then Some(ShownClosed)
    else if Tries(inputs[i]) then Some(ShownConnecting)
    else if inputs[i].ResyncCalled? || Gaps(inputs, i) != {} then Some(ShownResyncing)
    else None
  }

  /** The listeners are told of an open, a lost and a wanted connection, of a resync, and of a
      frame that flows, and of nothing else. */
  lemma ShownExactly(inputs: seq<Input>, i: nat)
    requires i < |inputs|
    ensures Shows(EffectsAt(inputs, i)) == Due(inputs, i)
  {
    hide Put, Take, Shows, At;
    ShowsOf(EffectsAt(inputs, i));
  }

  /** A socket is made for a token and for nothing else, and its opening announced. */
  lemma MadeExactly(inputs: seq<Input>, i: nat)
    requires i < |inputs|
    ensures SocketCreated in EffectsAt(inputs, i) <==> inputs[i] == TokenArrived(true)
    ensures SocketOpenNotified in EffectsAt(inputs, i) <==> Opens(inputs[i])
  {
    hide Put, Take, At;
  }

  lemma ShowsOf(es: seq<Effect>)
    ensures es == [] ==> Shows(es) == None
    ensures |es| == 1 ==> Shows(es) == if es[0].Emitted? then Some(es[0].state) else None
    ensures |es| == 2 && es[0].Emitted? && !es[1].Emitted? ==> Shows(es) == Some(es[0].state)
    ensures |es| == 3 && es[0].Emitted? && !es[1].Emitted? && !es[2].Emitted? ==> Shows(es) == Some(es[0].state)
  {
    if |es| == 2 { assert es[..1][0] == es[0]; }
    if |es| == 3 { assert es[..2][..1] == es[..1] && es[..2][1] == es[1] && es[..1][0] == es[0]; }
  }

  // ---- What there is ------------------------------------------------------

  /** Sockets that were made and have not reported their close. */
  function Alive(c: Client): nat {
    (if Live(c) then 1 else 0) + c.loose.connecting + c.loose.open + c.loose.closing
  }

  predicate Made(input: Input) {
    input == TokenArrived(true)
  }

  predicate Ended(input: Input) {
    input.SocketClosed? || input.LooseClosed?
  }

  predicate Asks(input: Input) {
    input.ConnectCalled? || input.TimerFired?
  }

  predicate Returns(input: Input) {
    input.TokenArrived? || input.TokenFailed? || input.SocketRefused?
  }

  /** How many of the first `n` inputs are of a kind. */
  function Number(inputs: seq<Input>, n: nat, kind: Input -> bool): nat
    requires n <= |inputs|
  {
    if n == 0 then 0 else Number(inputs, n - 1, kind) + if kind(inputs[n - 1]) then 1 else 0
  }

  lemma StepConserves(c: Client, armed: set<nat>, input: Input)
    requires Possible(c, armed, input)
    ensures var d := Handle(c, input).0;
      && Alive(d) + (if Ended(input) then 1 else 0) == Alive(c) + (if Made(input) then 1 else 0)
      && d.pendingTokens + (if Returns(input) then 1 else 0) == c.pendingTokens + (if Asks(input) then 1 else 0)
  {
    hide Frame, Transmit;
    FrameLeaves(c, input);
  }

  /** In every possible run each socket made is still alive or has reported its close once,
      and each call of connect is waiting or has come back once. */
  lemma {:induction false} NoneLost(inputs: seq<Input>, n: nat)
    requires PossibleRun(inputs) && n <= |inputs|
    ensures Number(inputs, n, Made) == Alive(At(inputs, n)) + Number(inputs, n, Ended)
    ensures Number(inputs, n, Asks) == At(inputs, n).pendingTokens + Number(inputs, n, Returns)
  {
    hide At, Log, ArmedTimers, Alive, Handle, Possible;
    if n == 0 {
      NoneYet(inputs);
    } else {
      NoneLost(inputs, n - 1);
      AtStep(inputs, n - 1);
      assert Possible(At(inputs, n - 1), ArmedTimers(Log(inputs, n - 1)), inputs[n - 1]);
      StepConserves(At(inputs, n - 1), ArmedTimers(Log(inputs, n - 1)), inputs[n - 1]);
    }
  }

  lemma NoneYet(inputs: seq<Input>)
    ensures Alive(At(inputs, 0)) == 0 && At(inputs, 0).pendingTokens == 0
  {
  }

  /** The caller has closed the client, and has not connected nor has a timer since. */
  ghost predicate ClosedSince(inputs: seq<Input>, k: int, n: nat)
    requires n <= |inputs|
  {
    0 <= k < n && inputs[k].CloseCalled? && forall m :: k < m < n ==> !Asks(inputs[m])
  }

  /** So long, and no longer, the client takes its connection for closed by the caller. */
  lemma {:induction false} ClosedExactly(inputs: seq<Input>, n: nat)
    requires n <= |inputs|
    ensures At(inputs, n).closedByCaller <==> exists k :: ClosedSince(inputs, k, n)
  {
    hide Frame, Transmit, Schedule, Put, Take;
    if n > 0 {
      var m := n - 1;
      ClosedExactly(inputs, m);
      LostKeepsClosed();
      FrameLeaves(At(inputs, m), inputs[m]);
      if inputs[m].CloseCalled? { assert ClosedSince(inputs, m, n); }
      if k :| ClosedSince(inputs, k, m) { assert !Asks(inputs[m]) ==> ClosedSince(inputs, k, n); }
      if k :| ClosedSince(inputs, k, n) { assert k < m ==> ClosedSince(inputs, k, m); }
    }
  }

  lemma LostKeepsClosed()
    ensures forall d: Client :: Lost(d).0.closedByCaller == d.closedByCaller
  {
  }

  /** The wait before a reconnection: one, two, five and then ten seconds, by the number of
      losses since a socket last opened. */
  lemma WaitsExactly(inputs: seq<Input>, n: nat, p: nat)
    requires PossibleRun(inputs) && n <= |inputs|
    requires p < |Log(inputs, n)| && Log(inputs, n)[p].Armed?
    ensures var failures := Failures(Log(inputs, n)[..p]);
      Log(inputs, n)[p].delay == 1000 * (if failures > 2 then 10 else failures * failures + 1)
  {
    hide At, Log, ArmedTimers, Failures;
    TimersUnderControl(inputs, n);
  }
}
