/**
  The two-phase decode and dispatch of NetworkManager.HandleMessage
  (Assets/scripts/NetworkManager.cs), as a pure function from a frame to a
  Plan: drop the frame, or route it under its type with the effects the
  switch produces and an optional reply to send. The JSON library is not
  modelled: a Decoder holds one abstract partial function per payload shape,
  JsonUtility.FromJson<T> for that T, where None is a failed decode.
*/
module Protocol {
  import opened Wrappers
  import opened DataModels
  import opened Logging

  type Frame = string

  datatype Decoder = Decoder(
    peek: Frame -> Option<BaseMessage>,
    progObj: Frame -> Option<MessageWrapper<CreateProgObjData>>,
    entity: Frame -> Option<MessageWrapper<EntityData>>,
    deletion: Frame -> Option<MessageWrapper<DeleteEntityData>>,
    room: Frame -> Option<MessageWrapper<RoomData>>,
    roomError: Frame -> Option<MessageWrapper<RoomErrorData>>,
    audio: Frame -> Option<MessageWrapper<AudioData>>,
    transcript: Frame -> Option<MessageWrapper<TranscriptMsg>>,
    error: Frame -> Option<MessageWrapper<ErrorMsg>>)

  /** The application-facing events the dispatcher and the connection raise. */
  datatype Event =
    | CreateProgObj(progObj: Option<CreateProgObjData>)
    | CreateGeomObj(geomObj: Option<EntityData>)
    | CreateAnchor(anchor: Option<EntityData>)
    | UpdateEntity(update: Option<EntityData>)
    | DelEntity(deletion: Option<DeleteEntityData>)
    | JoinRoomOK(joinedId: string)
    | LeaveRoomOK(leftId: string)
    | AudioReceived(audio: Option<AudioData>)
    | FlushAudio
    | TranscriptReceived(text: string)
    | Error(errorMessage: string)
    | Disconnected

  /**
    The public C# events HandleMessage raises, one per event type. A raise
    `handler?.Invoke(arg)` does nothing, and does not even evaluate arg, when
    the event has no subscriber; the dispatcher is therefore told which of
    them have at least one.
  */
  datatype Channel =
    | OnCreateProgObj | OnCreateGeomObj | OnCreateAnchor | OnUpdateEntity | OnDelEntity
    | OnJoinRoomOK | OnLeaveRoomOK | OnAudioReceived | OnFlushAudio | OnTranscriptReceived | OnError

  /** The event a message type is raised on, if its case raises one. */
  function ChannelFor(t: string): Option<Channel> {
    if t == "CreateEntityProgObj" then Some(OnCreateProgObj)
    else if t == "CreateEntityGeomObj" then Some(OnCreateGeomObj)
    else if t == "CreateEntityAnchor" then Some(OnCreateAnchor)
    else if t == "UpdateEntity" then Some(OnUpdateEntity)
    else if t == "DelEntity" then Some(OnDelEntity)
    else if t == "JoinRoomOK" then Some(OnJoinRoomOK)
    else if t == "LeaveRoomOK" then Some(OnLeaveRoomOK)
    else if t == "Audio" then Some(OnAudioReceived)
    else if t == "FlushAudio" then Some(OnFlushAudio)
    else if t == "Transcript" then Some(OnTranscriptReceived)
    else if t == "Error" then Some(OnError)
    else None
  }

  /** Whether the event of type t has at least one subscriber. */
  predicate Listens(listened: set<Channel>, t: string) {
    ChannelFor(t).Some? && ChannelFor(t).value in listened
  }

  /** Console output, tagged rather than formatted. */
  datatype Note =
    | LoggerLine(line: LogLine)
    | JoinRoomFailed(joinReason: string)
    | LeaveRoomFailed(leaveReason: string)
    | FlushAudioRequested
    | TranscriptShown(shown: string)
    | ServerErrorShown(shownError: string)
    | UnknownType(unknown: string)
    | MockCreateRequested(mockId: string)
    | SocketOpened
    | SocketError
    | SocketClosed
    | ReconnectPlanned

  datatype Effect =
    | Log(note: Note)
    | Fire(event: Event)
    | Transmit(envelope: MessageWrapper<Outgoing>)  // one text frame handed to the socket
    | ScheduleReconnect(delaySeconds: real)         // Invoke(ConnectToServer, delay)
    | CloseRequested                                // websocket.Close() started
    | Fault                                         // a NullReferenceException left the callback

  datatype Reply = Reply(eventName: string, data: Option<Outgoing>)

  datatype Plan =
    | Drop
    | Route(messageType: string, effects: seq<Effect>, reply: Option<Reply>)

  /** The case labels of the switch; every other type reaches the default branch. */
  const HandledTypes: set<string> := {
    "CreateEntityProgObj", "CreateEntityGeomObj", "CreateEntityAnchor", "UpdateEntity",
    "DelEntity", "JoinRoomOK", "JoinRoomError", "LeaveRoomError", "LeaveRoomOK",
    "Ping", "Audio", "FlushAudio", "Transcript", "Error"}

  /** The message type each application event answers to. */
  function MessageTypeOf(e: Event): Option<string> {
    match e
    case CreateProgObj(_) => Some("CreateEntityProgObj")
    case CreateGeomObj(_) => Some("CreateEntityGeomObj")
    case CreateAnchor(_) => Some("CreateEntityAnchor")
    case UpdateEntity(_) => Some("UpdateEntity")
    case DelEntity(_) => Some("DelEntity")
    case JoinRoomOK(_) => Some("JoinRoomOK")
    case LeaveRoomOK(_) => Some("LeaveRoomOK")
    case AudioReceived(_) => Some("Audio")
    case FlushAudio => Some("FlushAudio")
    case TranscriptReceived(_) => Some("Transcript")
    case Error(_) => Some("Error")
    case Disconnected => None
  }

  /** The events among a run of effects, in order. */
  function Events(effects: seq<Effect>): (r: seq<Event>)
    ensures |r| <= |effects|
    ensures forall e :: e in r <==> Fire(e) in effects
    ensures (forall i :: 0 <= i < |effects| ==> !effects[i].Fire?) ==> r == []
  {
    if effects == [] then []
    else (if effects[0].Fire? then [effects[0].event] else []) + Events(effects[1..])
  }

  lemma {:induction false} EventsAppend(a: seq<Effect>, b: seq<Effect>)
    ensures Events(a + b) == Events(a) + Events(b)
  {
    if a == [] {
      assert a + b == b;
    } else {
      assert (a + b)[1..] == a[1..] + b;
      EventsAppend(a[1..], b);
    }
  }

  /** The events of an effect list of at most two elements, spelled out. */
  lemma EventsOfShort(r: seq<Effect>)
    requires |r| <= 2
    ensures |r| == 0 ==> Events(r) == []
    ensures |r| == 1 ==> Events(r) == if r[0].Fire? then [r[0].event] else []
    ensures |r| == 2 ==> Events(r) == (if r[0].Fire? then [r[0].event] else []) + (if r[1].Fire? then [r[1].event] else [])
  {
    if |r| >= 1 {
      assert Events(r) == (if r[0].Fire? then [r[0].event] else []) + Events(r[1..]);
      if |r| == 2 {
        assert r[1..][1..] == [];
      }
    }
  }

  /** Phase one: the frame's type, when the peek decode succeeds and the type is neither null nor empty. */
  function PeekType(json: Decoder, frame: Frame): Option<string> {
    match json.peek(frame)
    case None => None
    case Some(b) => if b.messageType.Some? && b.messageType.value != "" then b.messageType else None
  }

  /**
    `handler?.Invoke(msg.data)` after a second decode: with no subscriber
    nothing happens; otherwise dereferencing a failed decode faults.
  */
  function Forward<T>(w: Option<MessageWrapper<T>>, raise: Option<T> -> Event, listening: bool): seq<Effect> {
    if !listening then []
    else match w
      case None => [Fault]
      case Some(m) => [Fire(raise(m.data))]
  }

  /** The payload of a second decode, when both the envelope and its data are present. */
  function Payload<T>(w: Option<MessageWrapper<T>>): Option<T> {
    if w.Some? then w.value.data else None
  }

  /** The events a run of effects may raise when handling a frame of type t: at most one, and only t's own. */
  predicate RaisesOnlyOwn(r: seq<Effect>, t: string) {
    |Events(r)| <= 1 && forall e :: e in Events(r) ==> MessageTypeOf(e) == Some(t)
  }

  /** The cases that forward an entity payload unchanged. */
  function EntityCase(json: Decoder, frame: Frame, t: string, listened: set<Channel>): (r: seq<Effect>)
    requires t in {"CreateEntityProgObj", "CreateEntityGeomObj", "CreateEntityAnchor", "UpdateEntity", "DelEntity"}
    ensures !Listens(listened, t) ==> r == []
    ensures Listens(listened, t) ==> r == [Fault] || (|r| == 1 && r[0].Fire? && MessageTypeOf(r[0].event) == Some(t))
  {
    if t == "CreateEntityProgObj" then Forward(json.progObj(frame), d => CreateProgObj(d), OnCreateProgObj in listened)
    else if t == "CreateEntityGeomObj" then Forward(json.entity(frame), d => CreateGeomObj(d), OnCreateGeomObj in listened)
    else if t == "CreateEntityAnchor" then Forward(json.entity(frame), d => CreateAnchor(d), OnCreateAnchor in listened)
    else if t == "UpdateEntity" then Forward(json.entity(frame), d => UpdateEntity(d), OnUpdateEntity in listened)
    else Forward(json.deletion(frame), d => DelEntity(d), OnDelEntity in listened)
  }

  /**
    The room cases. The OK cases pass `data.id` to the event, which is only
    evaluated for a subscriber; the error cases log `data.reason` unconditionally.
  */
  function RoomCase(json: Decoder, frame: Frame, t: string, listened: set<Channel>): (r: seq<Effect>)
    requires t in {"JoinRoomOK", "JoinRoomError", "LeaveRoomError", "LeaveRoomOK"}
    ensures t in {"JoinRoomOK", "LeaveRoomOK"} && !Listens(listened, t) ==> r == []
    ensures r == [] || r == [Fault] || (|r| == 1 && (r[0].Log? || (r[0].Fire? && MessageTypeOf(r[0].event) == Some(t))))
  {
    if t == "JoinRoomOK" then
      if !Listens(listened, t) then []
      else match Payload(json.room(frame)) case None => [Fault] case Some(d) => [Fire(JoinRoomOK(d.id))]
    else if t == "JoinRoomError" then
      (match Payload(json.roomError(frame)) case None => [Fault] case Some(d) => [Log(JoinRoomFailed(d.reason))])
    else if t == "LeaveRoomError" then
      (match Payload(json.roomError(frame)) case None => [Fault] case Some(d) => [Log(LeaveRoomFailed(d.reason))])
    else if !Listens(listened, t) then []
    else match Payload(json.room(frame)) case None => [Fault] case Some(d) => [Fire(LeaveRoomOK(d.id))]
  }

  /** A log line followed by the raise of e when its event has a subscriber. */
  function LogThenRaise(note: Note, e: Event, listening: bool): seq<Effect> {
    [Log(note)] + if listening then [Fire(e)] else []
  }

  /** The cases that decode a payload and may raise its event: audio, transcripts and server errors. */
  function MessageCase(json: Decoder, frame: Frame, t: string, listened: set<Channel>): (r: seq<Effect>)
    requires t in {"Audio", "Transcript", "Error"}
    ensures r == [Fault] || r == [] || (|r| == 1 && (r[0].Log? || (r[0].Fire? && MessageTypeOf(r[0].event) == Some(t))))
      || (|r| == 2 && r[0].Log? && r[1].Fire? && MessageTypeOf(r[1].event) == Some(t))
    ensures !Listens(listened, t) ==> forall i :: 0 <= i < |r| ==> !r[i].Fire?
  {
    if t == "Audio" then Forward(json.audio(frame), d => AudioReceived(d), OnAudioReceived in listened)
    else if t == "Transcript" then
      (match Payload(json.transcript(frame))
       case None => []
       case Some(d) => LogThenRaise(TranscriptShown(d.message), TranscriptReceived(d.message), OnTranscriptReceived in listened))
    else
      (match Payload(json.error(frame))
       case None => [Fault]
       case Some(d) => LogThenRaise(ServerErrorShown(d.message), Error(d.message), OnError in listened))
  }

  /** The remaining cases: Ping, which only replies, the payload-less FlushAudio, the message cases, and the default. */
  function OtherCase(json: Decoder, frame: Frame, t: string, listened: set<Channel>): (r: seq<Effect>)
    requires t !in {"CreateEntityProgObj", "CreateEntityGeomObj", "CreateEntityAnchor", "UpdateEntity", "DelEntity"}
    requires t !in {"JoinRoomOK", "JoinRoomError", "LeaveRoomError", "LeaveRoomOK"}
    ensures r == [Fault] || r == [] || (|r| == 1 && (r[0].Log? || (r[0].Fire? && MessageTypeOf(r[0].event) == Some(t))))
      || (|r| == 2 && r[0].Log? && r[1].Fire? && MessageTypeOf(r[1].event) == Some(t))
    ensures !Listens(listened, t) ==> forall i :: 0 <= i < |r| ==> !r[i].Fire?
    ensures t == "Ping" ==> r == []
    ensures t !in HandledTypes ==> r == [Log(UnknownType(t))]
  {
    if t == "Ping" then []
    else if t == "FlushAudio" then LogThenRaise(FlushAudioRequested, FlushAudio, OnFlushAudio in listened)
    else if t in {"Audio", "Transcript", "Error"} then MessageCase(json, frame, t, listened)
    else [Log(UnknownType(t))]
  }

  /** Phase two: the switch on the type. */
  function Switch(json: Decoder, frame: Frame, t: string, listened: set<Channel>): (r: seq<Effect>)
    ensures RaisesOnlyOwn(r, t)
    ensures !Listens(listened, t) ==> Events(r) == []
    ensures Fault in r ==> r == [Fault]
    ensures t == "Ping" ==> r == []
    ensures t !in HandledTypes ==> r == [Log(UnknownType(t))]
  {
    var r := if t in {"CreateEntityProgObj", "CreateEntityGeomObj", "CreateEntityAnchor", "UpdateEntity", "DelEntity"}
      then EntityCase(json, frame, t, listened)
      else if t in {"JoinRoomOK", "JoinRoomError", "LeaveRoomError", "LeaveRoomOK"} then RoomCase(json, frame, t, listened)
      else OtherCase(json, frame, t, listened);
    EventsOfShort(r);
    r
  }

  /** HandleMessage without its logging: what the frame leads to, given which events have subscribers. */
  function Dispatch(json: Decoder, frame: Frame, listened: set<Channel>): (r: Plan)
    // phase one decides whether the frame is looked at at all
    ensures r.Drop? <==> PeekType(json, frame).None?
    ensures r.Route? ==> PeekType(json, frame) == Some(r.messageType) && r.messageType != ""
    // only Ping replies, with an empty Pong and nothing else
    ensures r.Route? ==> (r.reply.Some? <==> r.messageType == "Ping")
    ensures r.Route? && r.reply.Some? ==> r.reply.value == Reply("Pong", Some(Text(""))) && r.effects == []
    // the effects are the switch's, which raise at most the one event belonging to the type
    ensures r.Route? ==> r.effects == Switch(json, frame, r.messageType, listened)
  {
    match PeekType(json, frame)
    case None => Drop
    case Some(t) =>
      Route(t, Switch(json, frame, t, listened), if t == "Ping" then Some(Reply("Pong", Some(Text("")))) else None)
  }

  /** Whether the second decode gives a case what it dereferences. */
  predicate Decodes(json: Decoder, frame: Frame, t: string) {
    if t == "CreateEntityProgObj" then json.progObj(frame).Some?
    else if t in {"CreateEntityGeomObj", "CreateEntityAnchor", "UpdateEntity"} then json.entity(frame).Some?
    else if t == "DelEntity" then json.deletion(frame).Some?
    else if t in {"JoinRoomOK", "LeaveRoomOK"} then Payload(json.room(frame)).Some?
    else if t in {"JoinRoomError", "LeaveRoomError"} then Payload(json.roomError(frame)).Some?
    else if t == "Audio" then json.audio(frame).Some?
    else if t == "Transcript" then Payload(json.transcript(frame)).Some?
    else if t == "Error" then Payload(json.error(frame)).Some?
    else true
  }

  /** The types whose case raises an application event. */
  const EventTypes: set<string> := {
    "CreateEntityProgObj", "CreateEntityGeomObj", "CreateEntityAnchor", "UpdateEntity",
    "DelEntity", "JoinRoomOK", "LeaveRoomOK", "Audio", "FlushAudio", "Transcript", "Error"}

  /**
    A routed event type raises exactly one event exactly when its payload
    decodes and its event has a subscriber. A failed decode faults where the
    case dereferences it: always for Error, which logs the message first;
    only with a subscriber for the raise-only cases; never for Transcript,
    whose case checks for null.
  */
  lemma EventTypeFiresOnceIffDecoded(json: Decoder, frame: Frame, listened: set<Channel>)
    requires PeekType(json, frame).Some? && PeekType(json, frame).value in EventTypes
    ensures var t := PeekType(json, frame).value;
      && (|Events(Dispatch(json, frame, listened).effects)| == 1 <==> Decodes(json, frame, t) && Listens(listened, t))
      && (!Decodes(json, frame, t) ==>
            Dispatch(json, frame, listened).effects ==
            if t == "Error" || (t != "Transcript" && Listens(listened, t)) then [Fault] else [])
  {
    var t := PeekType(json, frame).value;
    var r := Switch(json, frame, t, listened);
    assert Dispatch(json, frame, listened).effects == r;
    if t in {"CreateEntityProgObj", "CreateEntityGeomObj", "CreateEntityAnchor", "UpdateEntity", "DelEntity"} {
      assert r == EntityCase(json, frame, t, listened);
    } else if t in {"JoinRoomOK", "LeaveRoomOK"} {
      assert r == RoomCase(json, frame, t, listened);
    } else if t in {"Audio", "Transcript", "Error"} {
      assert r == MessageCase(json, frame, t, listened);
    } else {
      assert r == OtherCase(json, frame, t, listened);
    }
    EventsOfShort(r);
  }

  /** The room error cases log the reason and raise nothing, subscribers or not. */
  lemma RoomErrorsOnlyLog(json: Decoder, frame: Frame, listened: set<Channel>)
    requires PeekType(json, frame) in {Some("JoinRoomError"), Some("LeaveRoomError")}
    ensures Events(Dispatch(json, frame, listened).effects) == []
    ensures var p := Payload(json.roomError(frame));
      Dispatch(json, frame, listened).effects ==
        if p.None? then [Fault]
        else if PeekType(json, frame) == Some("JoinRoomError") then [Log(JoinRoomFailed(p.value.reason))]
        else [Log(LeaveRoomFailed(p.value.reason))]
  {
  }

  /** Ownership messages have no case: they are warned about and go nowhere. */
  lemma ClaimAndReleaseAreUnknown(json: Decoder, frame: Frame, listened: set<Channel>)
    requires PeekType(json, frame) in {Some("ClaimEntity"), Some("ReleaseEntity"), Some("Bogus")}
    ensures Dispatch(json, frame, listened) ==
      Route(PeekType(json, frame).value, [Log(UnknownType(PeekType(json, frame).value))], None)
  {
    var t := PeekType(json, frame).value;
    assert t !in HandledTypes;
    assert Switch(json, frame, t, listened) == [Log(UnknownType(t))];
  }

  /** The entity event for one of the three EntityData-shaped types. */
  function EntityEvent(t: string, d: Option<EntityData>): Event
    requires t in {"CreateEntityGeomObj", "CreateEntityAnchor", "UpdateEntity"}
  {
    if t == "CreateEntityGeomObj" then CreateGeomObj(d)
    else if t == "CreateEntityAnchor" then CreateAnchor(d)
    else UpdateEntity(d)
  }

  /** A decoded program-object envelope hands its data, null or not, to the subscribers. */
  lemma ProgObjCarriesData(json: Decoder, frame: Frame, listened: set<Channel>, w: MessageWrapper<CreateProgObjData>)
    requires PeekType(json, frame) == Some("CreateEntityProgObj") && json.progObj(frame) == Some(w)
    ensures Dispatch(json, frame, listened).effects ==
      if OnCreateProgObj in listened then [Fire(CreateProgObj(w.data))] else []
  {
  }

  /** Likewise for the three EntityData types, each on its own event. */
  lemma EntityCarriesData(json: Decoder, frame: Frame, listened: set<Channel>, t: string, w: MessageWrapper<EntityData>)
    requires t in {"CreateEntityGeomObj", "CreateEntityAnchor", "UpdateEntity"}
    requires PeekType(json, frame) == Some(t) && json.entity(frame) == Some(w)
    ensures Dispatch(json, frame, listened).effects ==
      if Listens(listened, t) then [Fire(EntityEvent(t, w.data))] else []
  {
  }

  lemma DelEntityCarriesData(json: Decoder, frame: Frame, listened: set<Channel>, w: MessageWrapper<DeleteEntityData>)
    requires PeekType(json, frame) == Some("DelEntity") && json.deletion(frame) == Some(w)
    ensures Dispatch(json, frame, listened).effects ==
      if OnDelEntity in listened then [Fire(DelEntity(w.data))] else []
  {
  }

  /** The room OK events carry only the room id, not the payload. */
  lemma RoomOKCarriesId(json: Decoder, frame: Frame, listened: set<Channel>, t: string, d: RoomData)
    requires t in {"JoinRoomOK", "LeaveRoomOK"}
    requires PeekType(json, frame) == Some(t) && Payload(json.room(frame)) == Some(d)
    ensures Dispatch(json, frame, listened).effects ==
      if !Listens(listened, t) then []
      else if t == "JoinRoomOK" then [Fire(JoinRoomOK(d.id))]
      else [Fire(LeaveRoomOK(d.id))]
  {
  }

  lemma AudioCarriesData(json: Decoder, frame: Frame, listened: set<Channel>, w: MessageWrapper<AudioData>)
    requires PeekType(json, frame) == Some("Audio") && json.audio(frame) == Some(w)
    ensures Dispatch(json, frame, listened).effects ==
      if OnAudioReceived in listened then [Fire(AudioReceived(w.data))] else []
  {
  }

  /** FlushAudio has no payload: it always logs, then raises its event for a subscriber. */
  lemma FlushAudioLogsThenRaises(json: Decoder, frame: Frame, listened: set<Channel>)
    requires PeekType(json, frame) == Some("FlushAudio")
    ensures Dispatch(json, frame, listened).effects ==
      [Log(FlushAudioRequested)] + if OnFlushAudio in listened then [Fire(FlushAudio)] else []
  {
  }

  /** A transcript with data shows the message and passes the message text alone on. */
  lemma TranscriptCarriesMessage(json: Decoder, frame: Frame, listened: set<Channel>, d: TranscriptMsg)
    requires PeekType(json, frame) == Some("Transcript") && Payload(json.transcript(frame)) == Some(d)
    ensures Dispatch(json, frame, listened).effects ==
      [Log(TranscriptShown(d.message))] + if OnTranscriptReceived in listened then [Fire(TranscriptReceived(d.message))] else []
  {
  }

  /** A server error with data logs the message and passes the message text alone on. */
  lemma ServerErrorCarriesMessage(json: Decoder, frame: Frame, listened: set<Channel>, d: ErrorMsg)
    requires PeekType(json, frame) == Some("Error") && Payload(json.error(frame)) == Some(d)
    ensures Dispatch(json, frame, listened).effects ==
      [Log(ServerErrorShown(d.message))] + if OnError in listened then [Fire(Error(d.message))] else []
  {
  }

  /** The JSON library reads the same type field whichever shape it decodes into. */
  ghost predicate Coherent(json: Decoder) {
    && (forall f :: json.progObj(f).Some? ==> json.peek(f) == Some(BaseMessage(json.progObj(f).value.messageType)))
    && (forall f :: json.entity(f).Some? ==> json.peek(f) == Some(BaseMessage(json.entity(f).value.messageType)))
    && (forall f :: json.deletion(f).Some? ==> json.peek(f) == Some(BaseMessage(json.deletion(f).value.messageType)))
    && (forall f :: json.audio(f).Some? ==> json.peek(f) == Some(BaseMessage(json.audio(f).value.messageType)))
  }

  /**
    End to end: a frame that is a full envelope of an entity type reaches the
    subscribers of that type's event with the envelope's own data, and nothing else.
  */
  lemma EntityEnvelopeReachesItsHandler(json: Decoder, frame: Frame, listened: set<Channel>, w: MessageWrapper<EntityData>, t: string)
    requires Coherent(json)
    requires json.entity(frame) == Some(w) && w.messageType == Some(t)
    requires t in {"CreateEntityGeomObj", "CreateEntityAnchor", "UpdateEntity"}
    ensures Dispatch(json, frame, listened) ==
      Route(t, if Listens(listened, t) then [Fire(EntityEvent(t, w.data))] else [], None)
  {
  }

  /** Likewise for the program-object creation message, which feeds the compiler. */
  lemma ProgObjEnvelopeReachesItsHandler(json: Decoder, frame: Frame, listened: set<Channel>, w: MessageWrapper<CreateProgObjData>)
    requires Coherent(json)
    requires json.progObj(frame) == Some(w) && w.messageType == Some("CreateEntityProgObj")
    ensures Dispatch(json, frame, listened) ==
      Route("CreateEntityProgObj", if OnCreateProgObj in listened then [Fire(CreateProgObj(w.data))] else [], None)
  {
  }
}
