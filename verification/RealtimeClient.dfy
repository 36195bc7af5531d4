/**
 The browser's reconnecting WebSocket client: sequence tracking per channel, gap
 detection, resync and reconnection with backoff.

 Everything that reaches the client is an `Input`; everything it does to the outside
 is an `Effect` appended to a log.  `connect` is split where it awaits the token.
 Only the order of inputs matters, so timers carry a delay but no clock.
 */
module RealtimeClient {
  import opened Options

  type Channel = string

  datatype ReadyState = Connecting | Open | Closed

  /** A parsed frame: whether its payload validates, the channel whose sequence is
      tracked, if any, and its content. */
  datatype Envelope = Envelope(validPayload: bool, channel: Option<Channel>, sequence: int, content: int)

  /** A socket the client opened and no longer holds, until its close event: replaced by
      a later one while connecting or open, or closed by the caller. */
  datatype Kind = ConnectingSocket | OpenSocket | ClosingSocket

  /** How many sockets of each kind are loose. */
  datatype Loose = Loose(connecting: nat, open: nat, closing: nat)

  const NONE_LOOSE := Loose(0, 0, 0)

  function Put(l: Loose, kind: Kind): Loose {
    match kind
    case ConnectingSocket => l.(connecting := l.connecting + 1)
    case OpenSocket => l.(open := l.open + 1)
    case ClosingSocket => l.(closing := l.closing + 1)
  }

  function Take(l: Loose, kind: Kind): Loose {
    match kind
    case ConnectingSocket => if l.connecting > 0 then l.(connecting := l.connecting - 1) else l
    case OpenSocket => if l.open > 0 then l.(open := l.open - 1) else l
    case ClosingSocket => if l.closing > 0 then l.(closing := l.closing - 1) else l
  }

  function CountOf(l: Loose, kind: Kind): nat {
    match kind
    case ConnectingSocket => l.connecting
    case OpenSocket => l.open
    case ClosingSocket => l.closing
  }

  /** `connect` ends in one of four ways: with a token and a socket, without a token, or
      by throwing, because the token promise rejects or the socket constructor throws. */
  datatype Input =
    | ConnectCalled
    | TokenArrived(present: bool)
    | TokenFailed
    | SocketRefused
    | SocketOpened
    | LooseOpened
    | FrameArrived(envelope: Option<Envelope>)
    | SocketClosed
    | LooseClosed(kind: Kind)
    | TimerFired(timer: nat)
    | SubscribeCalled(channels: set<Channel>)
    | ResyncCalled(channels: set<Channel>)
    | UnsubscribeCalled(channels: set<Channel>)
    | CloseCalled

  datatype Shown = ShownConnecting | ShownResyncing | ShownOpen | ShownClosed

  datatype Effect =
    | Emitted(state: Shown)
    | SentSubscribe(channels: set<Channel>)
    | SentUnsubscribe(channels: set<Channel>)
    | Delivered(envelope: Envelope)
    | SocketCreated
    | SocketOpenNotified
    | Armed(timer: nat, delay: nat)
    | Cleared(timer: nat)
    | Fired(timer: nat)

  datatype Client = Client(
    socket: Option<ReadyState>,
    loose: Loose,
    reconnectAttempt: nat,
    reconnectTimer: Option<nat>,
    closedByCaller: bool,
    subscribed: set<Channel>,
    lastSequence: map<Channel, int>,
    pendingTokens: nat,
    nextTimer: nat)

  const FRESH := Client(None, NONE_LOOSE, 0, None, false, {}, map[], 0, 0)

  function Delay(attempt: nat): nat {
    match attempt
    case 0 => 1000
    case 1 => 2000
    case 2 => 5000
    case _ => 10000
  }

  function Transmit(c: Client, e: Effect): seq<Effect> {
    if c.socket == Some(Open) then [e] else []
  }

  function Schedule(c: Client): (Client, seq<Effect>) {
    if c.reconnectTimer.Some? then (c, [])
    else
      (c.(reconnectTimer := Some(c.nextTimer), nextTimer := c.nextTimer + 1,
          reconnectAttempt := c.reconnectAttempt + 1),
       [Armed(c.nextTimer, Delay(c.reconnectAttempt))])
  }

  function Lost(c: Client): (Client, seq<Effect>) {
    if c.closedByCaller then (c, [Emitted(ShownClosed)])
    else var (d, es) := Schedule(c); (d, [Emitted(ShownClosed)] + es)
  }

  function Forget(last: map<Channel, int>, channels: set<Channel>): map<Channel, int> {
    last - channels
  }

  function Frame(c: Client, e: Envelope): (Client, seq<Effect>) {
    if !e.validPayload then (c, [])
    else if e.channel.None? then (c, [Delivered(e)])
    else
      var ch := e.channel.value;
      if ch in c.lastSequence && e.sequence <= c.lastSequence[ch] then (c, [])
      else if ch in c.lastSequence && e.sequence > c.lastSequence[ch] + 1 then
        (c.(lastSequence := c.lastSequence - {ch}), [Emitted(ShownResyncing)] + Transmit(c, SentSubscribe({ch})))
      else
        (c.(lastSequence := c.lastSequence[ch := e.sequence]), [Emitted(ShownOpen), Delivered(e)])
  }

  /** One call of `connect` has come back from its await. */
  function Resumed(c: Client): Client {
    c.(pendingTokens := if c.pendingTokens > 0 then c.pendingTokens - 1 else 0)
  }

  /** What becomes of the held socket when another takes its place. */
  function Replaced(c: Client): Loose {
    match c.socket
    case Some(Connecting) => Put(c.loose, ConnectingSocket)
    case Some(Open) => Put(c.loose, OpenSocket)
    case _ => c.loose
  }

  function Opened(c: Client): (Client, seq<Effect>) {
    var d := c.(reconnectAttempt := 0, lastSequence := map[]);
    (d, [Emitted(ShownOpen)] + (if d.subscribed != {} then Transmit(d, SentSubscribe(d.subscribed)) else [])
        + [SocketOpenNotified])
  }

  function Handle(c: Client, input: Input): (Client, seq<Effect>) {
    match input
    case ConnectCalled => (c.(closedByCaller := false, pendingTokens := c.pendingTokens + 1), [])
    case TokenArrived(present) =>
      if present then
        (Resumed(c).(socket := Some(Connecting), loose := Replaced(c)), [Emitted(ShownConnecting), SocketCreated])
      else Lost(Resumed(c))
    case TokenFailed => (Resumed(c), [])
    case SocketRefused => (Resumed(c), [Emitted(ShownConnecting)])
    case SocketOpened => Opened(c.(socket := Some(Open)))
    case LooseOpened => Opened(c.(loose := Put(Take(c.loose, ConnectingSocket), OpenSocket)))
    case FrameArrived(e) => if e.None? then (c, []) else Frame(c, e.value)
    case SocketClosed => Lost(c.(socket := Some(Closed)))
    case LooseClosed(kind) => Lost(c.(loose := Take(c.loose, kind)))
    case TimerFired(timer) =>
      (c.(reconnectTimer := None, closedByCaller := false, pendingTokens := c.pendingTokens + 1), [Fired(timer)])
    case SubscribeCalled(channels) =>
      (c.(subscribed := c.subscribed + channels), Transmit(c, SentSubscribe(channels)))
    case ResyncCalled(channels) =>
      (c.(subscribed := c.subscribed + channels, lastSequence := Forget(c.lastSequence, channels)),
       [Emitted(ShownResyncing)] + Transmit(c, SentSubscribe(channels)))
    case UnsubscribeCalled(channels) =>
      (c.(subscribed := c.subscribed - channels), Transmit(c, SentUnsubscribe(channels)))
    case CloseCalled =>
      (c.(closedByCaller := true, reconnectTimer := None, socket := None, lastSequence := map[],
          loose := if Live(c) then Put(c.loose, ClosingSocket) else c.loose),
       if c.reconnectTimer.Some? then [Cleared(c.reconnectTimer.value)] else [])
  }

  /** The held socket is connecting or open. */
  predicate Live(c: Client) {
    c.socket == Some(Connecting) || c.socket == Some(Open)
  }

  // ---- The client --------------------------------------------------------

  class WebClient {
    var socket: Option<ReadyState>
    var loose: Loose
    var reconnectAttempt: nat
    var reconnectTimer: Option<nat>
    var closedByCaller: bool
    var subscribedChannels: set<Channel>
    var lastSequenceByChannel: map<Channel, int>
    var pendingTokens: nat
    var nextTimer: nat
    var log: seq<Effect>

    ghost function State(): Client
      reads this
    {
      Client(socket, loose, reconnectAttempt, reconnectTimer, closedByCaller, subscribedChannels,
             lastSequenceByChannel, pendingTokens, nextTimer)
    }

    /** One input handled: the new state, and the log with what was done appended. */
    twostate predicate Handled(input: Input)
      reads this
    {
      var (c, es) := Handle(old(State()), input);
      State() == c && log == old(log) + es
    }

    constructor ()
      ensures State() == FRESH && log == []
    {
      socket, loose, reconnectAttempt, reconnectTimer, closedByCaller := None, NONE_LOOSE, 0, None, false;
      subscribedChannels, lastSequenceByChannel := {}, map[];
      pendingTokens, nextTimer, log := 0, 0, [];
    }

    method Send(effect: Effect)
      modifies this`log
      ensures log == old(log) + Transmit(State(), effect)
    {
      if socket == Some(Open) { log := log + [effect]; }
    }

    method ScheduleReconnect()
      modifies this
      ensures State() == Schedule(old(State())).0
      ensures log == old(log) + Schedule(old(State())).1
    {
      if reconnectTimer.Some? {
        assert log == log + [];
        return;
      }
      var delays := [1000, 2000, 5000, 10000];
      var delay: nat := delays[if reconnectAttempt < 3 then reconnectAttempt else 3];
      reconnectAttempt := reconnectAttempt + 1;
      reconnectTimer := Some(nextTimer);
      log := log + [Armed(nextTimer, delay)];
      nextTimer := nextTimer + 1;
    }

    method Connect()
      modifies this
      ensures Handled(ConnectCalled)
    {
      closedByCaller := false;
      pendingTokens := pendingTokens + 1;
    }

    method Resume()
      modifies this`pendingTokens
      ensures State() == Resumed(old(State()))
    {
      pendingTokens := if pendingTokens > 0 then pendingTokens - 1 else 0;
    }

    method OnToken(present: bool)
      modifies this
      ensures Handled(TokenArrived(present))
    {
      hide Put;
      Resume();
      if !present {
        log := log + [Emitted(ShownClosed)];
        if !closedByCaller { ScheduleReconnect(); }
        return;
      }
      log := log + [Emitted(ShownConnecting), SocketCreated];
      TakeSocket();
    }

    /** The new socket takes the place of the held one, which stays alive on its own. */
    method TakeSocket()
      modifies this`socket, this`loose
      ensures State() == old(State()).(socket := Some(Connecting), loose := Replaced(old(State())))
    {
      if socket == Some(Connecting) {
        loose := Put(loose, ConnectingSocket);
      } else if socket == Some(Open) {
        loose := Put(loose, OpenSocket);
      }
      socket := Some(Connecting);
    }

    /** The token promise rejects: the call ends here, and nobody catches it. */
    method OnTokenFailure()
      modifies this
      ensures Handled(TokenFailed)
    {
      Resume();
      assert log == log + [];
    }

    /** The socket constructor throws, after the listeners were told of connecting. */
    method OnSocketRefusal()
      modifies this
      ensures Handled(SocketRefused)
    {
      Resume();
      log := log + [Emitted(ShownConnecting)];
    }

    /** The open handler, which every socket the client made runs when it opens. */
    method HandleOpen()
      modifies this
      ensures State() == Opened(old(State())).0 && log == old(log) + Opened(old(State())).1
    {
      reconnectAttempt := 0;
      lastSequenceByChannel := map[];
      log := log + [Emitted(ShownOpen)];
      if subscribedChannels != {} {
        Send(SentSubscribe(subscribedChannels));
      }
      log := log + [SocketOpenNotified];
    }

    method OnOpen()
      modifies this
      ensures Handled(SocketOpened)
    {
      socket := Some(Open);
      HandleOpen();
    }

    method OnLooseOpen()
      modifies this
      ensures Handled(LooseOpened)
    {
      loose := Put(Take(loose, ConnectingSocket), OpenSocket);
      HandleOpen();
    }

    method OnMessage(parsed: Option<Envelope>)
      modifies this
      ensures Handled(FrameArrived(parsed))
    {
      if parsed.None? { return; }
      var envelope := parsed.value;
      if !envelope.validPayload { return; }
      if envelope.channel.Some? {
        var channel := envelope.channel.value;
        if channel in lastSequenceByChannel {
          var previous := lastSequenceByChannel[channel];
          if envelope.sequence <= previous { return; }
          if envelope.sequence > previous + 1 {
            lastSequenceByChannel := lastSequenceByChannel - {channel};
            log := log + [Emitted(ShownResyncing)];
            Send(SentSubscribe({channel}));
            return;
          }
        }
        lastSequenceByChannel := lastSequenceByChannel[channel := envelope.sequence];
        log := log + [Emitted(ShownOpen)];
      }
      log := log + [Delivered(envelope)];
    }

    method OnClose()
      modifies this
      ensures Handled(SocketClosed)
    {
      socket := Some(Closed);
      log := log + [Emitted(ShownClosed)];
      if !closedByCaller { ScheduleReconnect(); }
    }

    method OnLooseClose(kind: Kind)
      modifies this
      ensures Handled(LooseClosed(kind))
    {
      loose := Take(loose, kind);
      log := log + [Emitted(ShownClosed)];
      if !closedByCaller { ScheduleReconnect(); }
    }

    method OnTimer(timer: nat)
      modifies this
      ensures Handled(TimerFired(timer))
    {
      log := log + [Fired(timer)];
      reconnectTimer := None;
      Connect();
    }

    method Subscribe(channels: set<Channel>)
      modifies this
      ensures Handled(SubscribeCalled(channels))
    {
      subscribedChannels := subscribedChannels + channels;
      Send(SentSubscribe(channels));
    }

    method Resync(channels: set<Channel>)
      modifies this
      ensures Handled(ResyncCalled(channels))
    {
      subscribedChannels := subscribedChannels + channels;
      lastSequenceByChannel := lastSequenceByChannel - channels;
      log := log + [Emitted(ShownResyncing)];
      Send(SentSubscribe(channels));
    }

    method Unsubscribe(channels: set<Channel>)
      modifies this
      ensures Handled(UnsubscribeCalled(channels))
    {
      subscribedChannels := subscribedChannels - channels;
      Send(SentUnsubscribe(channels));
    }

    method Close()
      modifies this
      ensures Handled(CloseCalled)
    {
      hide Put;
      closedByCaller := true;
      if reconnectTimer.Some? {
        log := log + [Cleared(reconnectTimer.value)];
        reconnectTimer := None;
      }
      if socket == Some(Connecting) || socket == Some(Open) {
        loose := Put(loose, ClosingSocket);
      }
      socket := None;
      lastSequenceByChannel := map[];
    }
  }
}
