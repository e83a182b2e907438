/**
  The connection side of NetworkManager (Assets/scripts/NetworkManager.cs):
  which socket is current, the open/close callbacks with their reconnect
  rule, Send with its open-socket guard, and HandleMessage carrying out the
  plan Protocol.Dispatch computes. The WebSocket library is not modelled: the
  socket is an abstract state, and its callbacks are methods the transport
  calls. Everything observable (console lines, raised events, frames on the
  wire, the scheduled reconnect) is appended to `trace`.
*/
module Network {
  import opened Wrappers
  import opened DataModels
  import opened Logging
  import opened Protocol

  datatype SocketState = Connecting | Open | Closing | Closed

  /** One WebSocket object: the n-th one this manager created, for a URL. */
  datatype Socket = Socket(generation: nat, url: string, state: SocketState)

  /** What an OnDisconnected subscriber does to the public autoReconnect flag. */
  datatype Reaction = Observe | DisableAutoReconnect | EnableAutoReconnect

  /** autoReconnect once every subscriber has run, in subscription order. */
  function AfterSubscribers(subscribers: seq<Reaction>, autoReconnect: bool): bool
    decreases |subscribers|
  {
    if subscribers == [] then autoReconnect
    else
      var next := match subscribers[0]
        case Observe => autoReconnect
        case DisableAutoReconnect => false
        case EnableAutoReconnect => true;
      AfterSubscribers(subscribers[1..], next)
  }

  /** The last subscriber to set the flag decides it. */
  lemma {:induction false} LastSubscriberDecides(subscribers: seq<Reaction>, r: Reaction, autoReconnect: bool)
    ensures AfterSubscribers(subscribers + [r], autoReconnect) ==
      match r
      case Observe => AfterSubscribers(subscribers, autoReconnect)
      case DisableAutoReconnect => false
      case EnableAutoReconnect => true
    decreases |subscribers|
  {
    if subscribers == [] {
      assert [] + [r] == [r];
    } else {
      var next := match subscribers[0]
        case Observe => autoReconnect
        case DisableAutoReconnect => false
        case EnableAutoReconnect => true;
      assert (subscribers + [r])[1..] == subscribers[1..] + [r];
      LastSubscriberDecides(subscribers[1..], r, next);
    }
  }

  /** Subscribers that only observe leave the flag alone. */
  lemma {:induction false} ObserversKeepFlag(subscribers: seq<Reaction>, autoReconnect: bool)
    requires forall i :: 0 <= i < |subscribers| ==> subscribers[i] == Observe
    ensures AfterSubscribers(subscribers, autoReconnect) == autoReconnect
    decreases |subscribers|
  {
    if subscribers != [] {
      ObserversKeepFlag(subscribers[1..], autoReconnect);
    }
  }

  datatype CloseOutcome = CloseOutcome(effects: seq<Effect>, autoReconnect: bool)

  /** The OnClose callback, from the flags it reads and the subscribers it notifies. */
  function OnCloseOutcome(autoReconnect: bool, isQuitting: bool, subscribers: seq<Reaction>): (r: CloseOutcome)
    ensures |r.effects| >= 1 && r.effects[0] == Log(SocketClosed)
    ensures isQuitting ==> r == CloseOutcome([Log(SocketClosed)], autoReconnect)
    ensures r.autoReconnect == if autoReconnect && !isQuitting then AfterSubscribers(subscribers, autoReconnect) else autoReconnect
  {
    if autoReconnect && !isQuitting then
      // `OnDisconnected?.Invoke()` reaches nobody when nobody subscribed
      var notified := if subscribers != [] then [Fire(Disconnected)] else [];
      var after := AfterSubscribers(subscribers, autoReconnect);
      CloseOutcome([Log(SocketClosed)] + notified
        + if after && !isQuitting then [Log(ReconnectPlanned), ScheduleReconnect(1.0)] else [], after)
    else
      CloseOutcome([Log(SocketClosed)], autoReconnect)
  }

  /**
    A close notifies the OnDisconnected subscribers exactly once when
    reconnecting was wanted and there are any, and never otherwise.
  */
  lemma CloseNotifiesOnce(autoReconnect: bool, isQuitting: bool, subscribers: seq<Reaction>)
    ensures Events(OnCloseOutcome(autoReconnect, isQuitting, subscribers).effects)
      == if autoReconnect && !isQuitting && subscribers != [] then [Disconnected] else []
  {
    if autoReconnect && !isQuitting {
      var notified := if subscribers != [] then [Fire(Disconnected)] else [];
      var after := AfterSubscribers(subscribers, autoReconnect);
      var tail := if after then [Log(ReconnectPlanned), ScheduleReconnect(1.0)] else [];
      EventsAppend([Log(SocketClosed)] + notified, tail);
      EventsAppend([Log(SocketClosed)], notified);
      assert Events(tail) == [];
      assert Events([Fire(Disconnected)]) == [Disconnected];
    }
  }

  /**
    The reconnect condition is read again after the subscribers ran: a
    reconnect is scheduled exactly when it was wanted and still is. It is
    always one second away, the last effect, after the notification if
    there was one.
  */
  lemma CloseReconnectRule(autoReconnect: bool, isQuitting: bool, subscribers: seq<Reaction>)
    ensures var r := OnCloseOutcome(autoReconnect, isQuitting, subscribers);
      (exists d :: ScheduleReconnect(d) in r.effects) <==>
        autoReconnect && !isQuitting && AfterSubscribers(subscribers, autoReconnect)
    ensures var r := OnCloseOutcome(autoReconnect, isQuitting, subscribers);
      forall i :: 0 <= i < |r.effects| && r.effects[i].ScheduleReconnect? ==>
        && r.effects[i] == ScheduleReconnect(1.0) && i == |r.effects| - 1
        && (subscribers != [] ==> r.effects[1] == Fire(Disconnected))
  {
    var r := OnCloseOutcome(autoReconnect, isQuitting, subscribers);
    if autoReconnect && !isQuitting && AfterSubscribers(subscribers, autoReconnect) {
      assert r.effects[|r.effects| - 1] == ScheduleReconnect(1.0);
    }
  }

  /** Logger lines as console effects. */
  function Notes(lines: seq<LogLine>): (r: seq<Effect>)
    ensures Events(r) == []
  {
    seq(|lines|, i requires 0 <= i < |lines| => Log(LoggerLine(lines[i])))
  }

  predicate IsOpen(websocket: Option<Socket>) {
    websocket.Some? && websocket.value.state == Open
  }

  datatype SendOutcome = SendOutcome(effects: seq<Effect>, counters: map<string, int>)

  /** Send with a logger present: always logged, on the wire only through an open socket. */
  function SendOutcomeOf(counters: map<string, int>, showSendDetails: bool, websocket: Option<Socket>,
                         eventName: string, data: Option<Outgoing>): (r: SendOutcome)
    ensures r.counters == SendLog(counters, showSendDetails, eventName, data).counters
  {
    var step := SendLog(counters, showSendDetails, eventName, data);
    SendOutcome(Notes(step.lines) + if IsOpen(websocket) then [Transmit(MessageWrapper(Some(eventName), data))] else [],
                step.counters)
  }

  /**
    Everything LogSend prints is logged first. Exactly when the socket is open,
    one frame then goes on the wire, and it is the envelope {type: eventName,
    data}. A send raises no event.
  */
  lemma SendTransmitsIffOpen(counters: map<string, int>, showSendDetails: bool, websocket: Option<Socket>,
                             eventName: string, data: Option<Outgoing>)
    ensures var r := SendOutcomeOf(counters, showSendDetails, websocket, eventName, data);
      && ((exists e :: Transmit(e) in r.effects) <==> IsOpen(websocket))
      && (forall e :: Transmit(e) in r.effects ==> e == MessageWrapper(Some(eventName), data))
      && (IsOpen(websocket) ==> r.effects[|r.effects| - 1] == Transmit(MessageWrapper(Some(eventName), data)))
      && Events(r.effects) == []
      // everything before the frame is what LogSend printed
      && r.effects[..|r.effects| - (if IsOpen(websocket) then 1 else 0)]
         == Notes(SendLog(counters, showSendDetails, eventName, data).lines)
  {
    var step := SendLog(counters, showSendDetails, eventName, data);
    var wire := if IsOpen(websocket) then [Transmit(MessageWrapper(Some(eventName), data))] else [];
    EventsAppend(Notes(step.lines), wire);
    assert Events(wire) == [];
    var r := SendOutcomeOf(counters, showSendDetails, websocket, eventName, data);
    assert r.effects == Notes(step.lines) + wire;
    if IsOpen(websocket) {
      assert r.effects[|r.effects| - 1] == wire[0];
    }
  }

  /** The Pong reply: one frame `{type: "Pong", data: ""}` when open, counters untouched. */
  lemma PongReply(counters: map<string, int>, showSendDetails: bool, websocket: Option<Socket>)
    ensures var r := SendOutcomeOf(counters, showSendDetails, websocket, "Pong", Some(Text("")));
      && r.counters == counters
      && (IsOpen(websocket) ==> Transmit(MessageWrapper(Some("Pong"), Some(Text("")))) in r.effects)
  {
    SendTransmitsIffOpen(counters, showSendDetails, websocket, "Pong", Some(Text("")));
  }

  /**
    What carrying out a routed plan leaves: the trace grows by the receive
    lines, then the switch's effects, then the reply's send (if any); only
    that send moves the counters.
  */
  predicate Carried(plan: Plan, frame: Frame, trace0: seq<Effect>, counters0: map<string, int>,
                    showReceiveDetails: bool, showSendDetails: bool, websocket: Option<Socket>,
                    trace: seq<Effect>, counters: map<string, int>)
    requires plan.Route?
  {
    var received := Notes(ReceiveLines(showReceiveDetails, plan.messageType, frame)) + plan.effects;
    match plan.reply
    case Some(reply) =>
      var r := SendOutcomeOf(counters0, showSendDetails, websocket, reply.eventName, reply.data);
      trace == trace0 + received + r.effects && counters == r.counters
    case None =>
      trace == trace0 + received && counters == counters0
  }

  class NetworkManager {
    var serverUrl: string
    var autoReconnect: bool
    var isQuitting: bool
    var websocket: Option<Socket>
    var nextGeneration: nat
    var subscribers: seq<Reaction>
    /** The dispatcher's events that have at least one subscriber. */
    var listened: set<Channel>
    var trace: seq<Effect>
    const logger: NetworkLogger?
    const json: Decoder

    ghost predicate Valid()
      reads this, logger
    {
      && (websocket.Some? ==> websocket.value.generation < nextGeneration)
      && (logger != null ==> Bounded(logger.counters))
    }

    constructor (serverUrl: string, logger: NetworkLogger?, json: Decoder)
      requires logger != null ==> Bounded(logger.counters)
      ensures Valid()
      ensures this.serverUrl == serverUrl && this.logger == logger && this.json == json
      ensures autoReconnect && !isQuitting && websocket == None && nextGeneration == 0
      ensures subscribers == [] && listened == {} && trace == []
    {
      this.serverUrl := serverUrl;
      this.logger := logger;
      this.json := json;
      autoReconnect := true;
      isQuitting := false;
      websocket := None;
      nextGeneration := 0;
      subscribers := [];
      listened := {};
      trace := [];
    }

    /** `OnDisconnected += handler`. */
    method SubscribeDisconnected(r: Reaction)
      modifies this`subscribers
      ensures subscribers == old(subscribers) + [r]
    {
      subscribers := subscribers + [r];
    }

    /** `OnCreateProgObj += handler` and the like: the event now has a subscriber. */
    method Subscribe(channel: Channel)
      modifies this`listened
      ensures listened == old(listened) + {channel}
    {
      listened := listened + {channel};
    }

    /** Replaces the current socket by a fresh one that starts connecting; the old one is dropped, not closed. */
    method ConnectToServer()
      requires Valid()
      modifies this`websocket, this`nextGeneration
      ensures Valid()
      ensures websocket == Some(Socket(old(nextGeneration), serverUrl, Connecting))
      ensures nextGeneration == old(nextGeneration) + 1
    {
      websocket := Some(Socket(nextGeneration, serverUrl, Connecting));
      nextGeneration := nextGeneration + 1;
    }

    /** The transport reports that socket `generation` opened: log, and restart the logger's counts. */
    method OnOpen(generation: nat)
      requires Valid() && generation < nextGeneration
      modifies this`websocket, this`trace, logger
      ensures Valid()
      ensures websocket == if old(websocket).Some? && old(websocket).value.generation == generation
        then Some(old(websocket).value.(state := Open)) else old(websocket)
      ensures trace == old(trace) + [Log(SocketOpened)]
      ensures logger != null ==>
        && logger.counters == map[]
        && logger.showSendDetails == old(logger.showSendDetails)
        && logger.showReceiveDetails == old(logger.showReceiveDetails)
    {
      if websocket.Some? && websocket.value.generation == generation {
        websocket := Some(websocket.value.(state := Open));
      }
      trace := trace + [Log(SocketOpened)];
      if logger != null {
        logger.ResetCounters();
      }
    }

    method OnError(generation: nat)
      requires generation < nextGeneration
      modifies this`trace
      ensures trace == old(trace) + [Log(SocketError)]
    {
      trace := trace + [Log(SocketError)];
    }

    /**
      The transport reports that socket `generation` closed. The callback never
      asks which socket closed, so a stale socket's close runs it too.
    */
    method OnClose(generation: nat)
      requires Valid() && generation < nextGeneration
      modifies this`websocket, this`trace, this`autoReconnect
      ensures Valid()
      ensures websocket == if old(websocket).Some? && old(websocket).value.generation == generation
        then Some(old(websocket).value.(state := Closed)) else old(websocket)
      ensures var r := OnCloseOutcome(old(autoReconnect), isQuitting, subscribers);
        trace == old(trace) + r.effects && autoReconnect == r.autoReconnect
    {
      if websocket.Some? && websocket.value.generation == generation {
        websocket := Some(websocket.value.(state := Closed));
      }
      trace := trace + [Log(SocketClosed)];
      if autoReconnect && !isQuitting {
        if subscribers != [] {
          trace := trace + [Fire(Disconnected)];
          autoReconnect := AfterSubscribers(subscribers, autoReconnect);
        }
        if autoReconnect && !isQuitting {
          trace := trace + [Log(ReconnectPlanned), ScheduleReconnect(1.0)];
        }
      }
    }

    /** From here on no close notifies anyone or reconnects. */
    method OnApplicationQuit()
      requires Valid()
      modifies this`isQuitting, this`websocket, this`trace
      ensures Valid() && isQuitting
      ensures websocket == if old(websocket).Some? && old(websocket).value.state == Open
        then Some(old(websocket).value.(state := Closing)) else old(websocket)
      ensures trace == old(trace) + if old(websocket).Some? then [CloseRequested] else []
    {
      isQuitting := true;
      if websocket.Some? {
        trace := trace + [CloseRequested];
        if websocket.value.state == Open {
          websocket := Some(websocket.value.(state := Closing));
        }
      }
    }

    /** Wraps `{type, data}`, logs it, and hands it to the socket only when that is open. */
    method Send(eventName: string, data: Option<Outgoing>)
      requires Valid()
      modifies this`trace, logger
      ensures Valid()
      ensures logger == null ==> trace == old(trace) + [Fault]
      ensures logger != null ==>
        var r := SendOutcomeOf(old(logger.counters), logger.showSendDetails, websocket, eventName, data);
        && trace == old(trace) + r.effects
        && logger.counters == r.counters
        && logger.showSendDetails == old(logger.showSendDetails)
        && logger.showReceiveDetails == old(logger.showReceiveDetails)
    {
      var wrapper := MessageWrapper(Some(eventName), data);
      if logger == null {
        trace := trace + [Fault];
        return;
      }
      var lines := logger.LogSend(eventName, data);
      trace := trace + Notes(lines);
      if websocket.Some? && websocket.value.state == Open {
        trace := trace + [Transmit(wrapper)];
      }
    }

    /** A frame arriving on any socket: log its type, then carry out the plan. */
    method HandleMessage(frame: Frame)
      requires Valid()
      modifies this`trace, logger
      ensures Valid()
      ensures Dispatch(json, frame, listened).Drop? ==> trace == old(trace)
      ensures Dispatch(json, frame, listened).Route? && logger == null ==> trace == old(trace) + [Fault]
      ensures logger != null ==>
        && logger.showSendDetails == old(logger.showSendDetails)
        && logger.showReceiveDetails == old(logger.showReceiveDetails)
      ensures Dispatch(json, frame, listened).Drop? && logger != null ==> logger.counters == old(logger.counters)
      ensures Dispatch(json, frame, listened).Route? && logger != null ==>
        Carried(Dispatch(json, frame, listened), frame, old(trace), old(logger.counters), logger.showReceiveDetails,
                logger.showSendDetails, websocket, trace, logger.counters)
    {
      var plan := Dispatch(json, frame, listened);
      if plan.Drop? {
        return;
      }
      if logger == null {
        trace := trace + [Fault];
        return;
      }
      Carry(plan, frame);
    }

    /** Logs a routed frame once, appends the switch's effects, and sends the reply if there is one. */
    method Carry(plan: Plan, frame: Frame)
      requires Valid() && plan.Route? && logger != null
      modifies this`trace, logger
      ensures Valid()
      ensures logger.showSendDetails == old(logger.showSendDetails)
      ensures logger.showReceiveDetails == old(logger.showReceiveDetails)
      ensures Carried(plan, frame, old(trace), old(logger.counters), logger.showReceiveDetails,
                      logger.showSendDetails, websocket, trace, logger.counters)
    {
      var lines := logger.LogReceive(plan.messageType, frame);
      trace := trace + Notes(lines) + plan.effects;
      if plan.reply.Some? {
        Send(plan.reply.value.eventName, plan.reply.value.data);
      }
    }

    /**
      A test hook: raises the program-object event directly. The log line reads
      the id first, so a null payload faults even without a subscriber.
    */
    method TriggerMockCreateEvent(data: Option<CreateProgObjData>)
      modifies this`trace
      ensures trace == old(trace) +
        if data.None? then [Fault]
        else [Log(MockCreateRequested(data.value.id))] + if OnCreateProgObj in listened then [Fire(CreateProgObj(data))] else []
    {
      if data.None? {
        trace := trace + [Fault];
        return;
      }
      trace := trace + [Log(MockCreateRequested(data.value.id))];
      if OnCreateProgObj in listened {
        trace := trace + [Fire(CreateProgObj(data))];
      }
    }
  }
}
