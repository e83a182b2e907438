# Runtime loader client core, modelled in Dafny

This project models the client core of a Unity runtime loader. The client
keeps a WebSocket connection to a coordination server and decodes each text
frame in two phases: first a peek at its `type`, then the payload shape that
type selects. It routes the payload to one application event. It keeps a
registry from entity id to game object, and it compiles C# source sent by the
server and attaches the first `MonoBehaviour` type of the result to an entity.

The Unity engine, the JSON library, the WebSocket library and the Roslyn
compiler are all abstract here:

- JSON decoding is a `Protocol.Decoder`. It holds one function per payload
  shape, standing for `JsonUtility.FromJson<T>`. `None` means the decode failed.
- A socket is a `Network.Socket`: a generation number, its URL and a state
  (`Connecting | Open | Closing | Closed`). The transport's callbacks are
  methods of `Network.NetworkManager`.
- The Roslyn compiler and reflection are a `Compiler.Toolchain`. It holds
  three functions: emit, whether a metadata file can be read, and load plus
  `GetTypes`.
- What the network side does observably becomes a tagged effect appended to
  `NetworkManager.trace`: console lines, raised events, frames handed to the
  socket, and the one-second reconnect timer (`Invoke`). The logger's methods
  return the lines they print, and `NetworkManager` appends them to its trace.
- The registry's "registered" log line is the id appended to
  `EntityManager.announced`.
- The compiler's console lines are the `log` sequence that
  `CompileAndAttach` returns.

Files, one module each:

- `wrappers.dfy` — `Option`, the stand-in for a nullable reference.
- `data_models.dfy` — the payload shapes.
- `scene.dfy` — Unity stand-ins: `Transform`, `GameObject`, and a rotation
  kept as the Euler angles it was built from.
- `network_logger.dfy` — `Logging`, the throttled logger.
- `protocol.dfy` — `Protocol`, the decode-and-dispatch of `HandleMessage`,
  written as a pure function.
- `network_manager.dfy` — `Network`, the connection lifecycle, `Send`, and
  `HandleMessage` carrying out the dispatch plan.
- `entity_manager.dfy` — `Entities`, the registry and `ApplyPose`.
- `roslyn_compiler.dfy` — `Compiler`, the compile-and-attach control flow.

The model follows what the code does, in particular:

- Closing notifies `OnDisconnected` only when a reconnect is wanted and the
  event has subscribers, not on every close.
- `DelEntity` only raises an event and removes nothing from the registry.
- `ClaimEntity` and `ReleaseEntity` reach the `default` branch.
- A payload that fails to decode and is then dereferenced throws a
  `NullReferenceException` out of the handler. That is the `Fault` effect;
  the frame is not dropped silently.
- The dereference happens only where the code evaluates it. An event raised
  as `handler?.Invoke(msg.data.id)` evaluates nothing when the event has no
  subscriber. The `Debug.Log*` lines of the room-error, server-error and mock
  cases dereference unconditionally.

## Model

| member | source | states |
|---|---|---|
| DataModels.NewPose | unity-rumtime-loader/Assets/scripts/DataModels.cs:34-40 | a pose built without an explicit scale has scale (1,1,1); position and rotation are the ones given |
| DataModels.BodyIndicesDistinctAndInRange | unity-rumtime-loader/Assets/scripts/DataModels.cs:52-57 | HEAD, LEFT_HAND and RIGHT_HAND are pairwise distinct and valid indices into a three-element array |
| Logging.OnlyPoseStreamsThrottled | unity-rumtime-loader/Assets/scripts/NetworkLogger.cs:19-22 | exactly the names "HeadPose" and "Poses" are high-frequency, compared exactly (so "headpose", "Pose" or "Pong" are not) |
| Logging.SendLog | unity-rumtime-loader/Assets/scripts/NetworkLogger.cs:24-47 | a send prints nothing at all exactly when a high-frequency counter stays below 100 after the increment; otherwise exactly one type line first (the summary line for high-frequency names), plus a detail line exactly when details are on and data is non-null; low-frequency names leave the counters unchanged; a counter reaching 100 is reset to 0; no other name's counter moves; counters stay in [0, 99] on high-frequency names only |
| Logging.ThrottleBalance | unity-rumtime-loader/Assets/scripts/NetworkLogger.cs:17-35 | over any interleaving of sends, for one high-frequency name: final counter + 100 × summary lines = starting counter + sends of that name; other names contribute nothing |
| Logging.ThrottleRate | unity-rumtime-loader/Assets/scripts/NetworkLogger.cs:17-35 | the number of summary lines for a name is (start + sends) / 100 and its counter ends at (start + sends) % 100: after a reset, exactly one line per 100 sends of it, whatever other names are sent meanwhile |
| Logging.AfterResetCountStartsAtOne | unity-rumtime-loader/Assets/scripts/NetworkLogger.cs:27-32 | from empty counters, a high-frequency send prints nothing and leaves that name's counter at 1 |
| Logging.ReceiveLines | unity-rumtime-loader/Assets/scripts/NetworkLogger.cs:49-58 | a receive always prints the type line first, and the frame as a second line exactly when receive details are on |
| Logging.NetworkLogger.constructor | unity-rumtime-loader/Assets/scripts/NetworkLogger.cs:10-17 | both detail switches off, no counters |
| Logging.NetworkLogger.LogSend | unity-rumtime-loader/Assets/scripts/NetworkLogger.cs:24-47 | the in-place insert, increment, early return and reset produce exactly the lines and counters of SendLog |
| Logging.NetworkLogger.LogReceive | unity-rumtime-loader/Assets/scripts/NetworkLogger.cs:49-58 | prints ReceiveLines and changes no state (no modifies clause), so counters are untouched |
| Logging.NetworkLogger.ResetCounters | unity-rumtime-loader/Assets/scripts/NetworkLogger.cs:60-63 | the counter dictionary is empty afterwards |
| Protocol.EntityCase | unity-rumtime-loader/Assets/scripts/NetworkManager.cs:109-132 | an entity case with no subscriber to its event does nothing at all, even on a failed decode; with one, it faults on a failed second decode or raises exactly its own type's event (the data carried is stated by the ...CarriesData lemmas) |
| Protocol.RoomCase | unity-rumtime-loader/Assets/scripts/NetworkManager.cs:135-154 | JoinRoomOK and LeaveRoomOK do nothing without a subscriber; otherwise each room case faults on a missing payload or has exactly one effect, a log line or its own type's event (the data carried is stated by RoomOKCarriesId and RoomErrorsOnlyLog) |
| Protocol.MessageCase | unity-rumtime-loader/Assets/scripts/NetworkManager.cs:160-187 | Audio, Transcript and Error raise at most their own event, last, after at most one log line, and no event at all without a subscriber (the data carried is stated by AudioCarriesData, TranscriptCarriesMessage and ServerErrorCarriesMessage) |
| Protocol.OtherCase | unity-rumtime-loader/Assets/scripts/NetworkManager.cs:156-191 | Ping has no effect of its own; every other case raises at most its own type's event, last, after at most one log line (FlushAudio logs first, Audio does not), and none without a subscriber; a type without a case only produces the unknown-type warning |
| Protocol.Switch | unity-rumtime-loader/Assets/scripts/NetworkManager.cs:106-192 | every case raises at most one event, always the one whose message type is the case's, and none when that event has no subscriber; a null dereference ends the case with nothing else; Ping does nothing itself; every type without a case only logs an unknown-type warning |
| Protocol.Dispatch | unity-rumtime-loader/Assets/scripts/NetworkManager.cs:98-193 | a frame is dropped with no effect at all exactly when the peek decode fails or its type is null or empty; otherwise it is routed under that type; exactly Ping replies, with Send("Pong", "") and no other effect |
| Protocol.EventTypeFiresOnceIffDecoded | unity-rumtime-loader/Assets/scripts/NetworkManager.cs:109-189 | for every type whose case raises an event: exactly one event is raised iff the second decode supplies what the case dereferences and the event has a subscriber; a failed decode faults always for Error (its log line dereferences), only with a subscriber for the raise-only cases, and never for Transcript (null-checked), and otherwise leaves nothing |
| Protocol.RoomErrorsOnlyLog | unity-rumtime-loader/Assets/scripts/NetworkManager.cs:140-149 | JoinRoomError and LeaveRoomError raise no event; they log the decoded reason, or fault on a null payload |
| Protocol.ClaimAndReleaseAreUnknown | unity-rumtime-loader/Assets/scripts/NetworkManager.cs:189-191 | ClaimEntity, ReleaseEntity and Bogus only produce the unknown-type warning: no event, no reply |
| Protocol.ProgObjCarriesData | unity-rumtime-loader/Assets/scripts/NetworkManager.cs:109-112 | a decoded CreateEntityProgObj envelope hands its data, null or not, to OnCreateProgObj when that has a subscriber, and does nothing otherwise |
| Protocol.EntityCarriesData | unity-rumtime-loader/Assets/scripts/NetworkManager.cs:114-127 | likewise GeomObj, Anchor and UpdateEntity pass the envelope's EntityData on their own event |
| Protocol.DelEntityCarriesData | unity-rumtime-loader/Assets/scripts/NetworkManager.cs:129-132 | likewise DelEntity passes its DeleteEntityData, and removes nothing |
| Protocol.RoomOKCarriesId | unity-rumtime-loader/Assets/scripts/NetworkManager.cs:135-154 | JoinRoomOK and LeaveRoomOK pass only the room's id, to their own event, when it has a subscriber |
| Protocol.AudioCarriesData | unity-rumtime-loader/Assets/scripts/NetworkManager.cs:160-163 | Audio passes the envelope's AudioData on OnAudioReceived |
| Protocol.FlushAudioLogsThenRaises | unity-rumtime-loader/Assets/scripts/NetworkManager.cs:165-169 | FlushAudio always logs, then raises OnFlushAudio for a subscriber; it decodes nothing |
| Protocol.TranscriptCarriesMessage | unity-rumtime-loader/Assets/scripts/NetworkManager.cs:171-181 | a transcript with data shows the message, then passes the message text alone to a subscriber |
| Protocol.ServerErrorCarriesMessage | unity-rumtime-loader/Assets/scripts/NetworkManager.cs:183-187 | a server error with data logs the message, then passes the message text alone to a subscriber |
| Protocol.EntityEnvelopeReachesItsHandler | unity-rumtime-loader/Assets/scripts/NetworkManager.cs:98-127 | when the peek agrees with the full decode, an envelope of an entity type is routed under that type and raises exactly that type's event with the envelope's own data, if it has a subscriber |
| Protocol.ProgObjEnvelopeReachesItsHandler | unity-rumtime-loader/Assets/scripts/NetworkManager.cs:98-112 | likewise, a CreateEntityProgObj envelope raises OnCreateProgObj with its data |
| Network.LastSubscriberDecides | unity-rumtime-loader/Assets/scripts/NetworkManager.cs:77-83 | after the OnDisconnected subscribers run in order, the last one to set autoReconnect decides it, so a subscriber that clears it suppresses the reconnect |
| Network.ObserversKeepFlag | unity-rumtime-loader/Assets/scripts/NetworkManager.cs:77-83 | subscribers that only observe leave autoReconnect as it was |
| Network.OnCloseOutcome | unity-rumtime-loader/Assets/scripts/NetworkManager.cs:75-86 | a close always logs first; while quitting nothing but the log line happens; autoReconnect afterwards is what the subscribers left when they were notified, and untouched otherwise |
| Network.CloseNotifiesOnce | unity-rumtime-loader/Assets/scripts/NetworkManager.cs:77-79 | OnDisconnected reaches its subscribers exactly once iff autoReconnect && !isQuitting held at the close and there are subscribers, and never otherwise |
| Network.CloseReconnectRule | unity-rumtime-loader/Assets/scripts/NetworkManager.cs:77-84 | a reconnect is scheduled iff the condition held before the notification and autoReconnect is still set after the subscribers ran; it is always 1.0 s away, the last effect, after the notification when there was one |
| Network.SendOutcomeOf | unity-rumtime-loader/Assets/scripts/NetworkManager.cs:195-202 | Send always goes through LogSend, so the logger's counters move exactly as SendLog says; the effects are stated by SendTransmitsIffOpen |
| Network.SendTransmitsIffOpen | unity-rumtime-loader/Assets/scripts/NetworkManager.cs:197-209 | the effects start with exactly the lines LogSend prints (none for a suppressed pose send); exactly when the socket is open one frame follows, last, the envelope {type: eventName, data}; otherwise nothing goes on the wire; a send raises no event |
| Network.PongReply | unity-rumtime-loader/Assets/scripts/NetworkManager.cs:156-157 | the Pong reply leaves the logger counters unchanged and, on an open socket, puts {type: "Pong", data: ""} on the wire |
| Network.NetworkManager.constructor | unity-rumtime-loader/Assets/scripts/NetworkManager.cs:11-34 | autoReconnect starts true, isQuitting false, no socket, and no event has a subscriber |
| Network.NetworkManager.Subscribe | unity-rumtime-loader/Assets/scripts/NetworkManager.cs:20-34 | subscribing to one of the dispatcher's events marks it as having a subscriber, and only it |
| Network.NetworkManager.SubscribeDisconnected | unity-rumtime-loader/Assets/scripts/NetworkManager.cs:14 | a handler added to OnDisconnected runs after those already there |
| Network.NetworkManager.ConnectToServer | unity-rumtime-loader/Assets/scripts/NetworkManager.cs:61-95 | the current socket is replaced by a fresh connecting one for serverUrl; nothing else changes |
| Network.NetworkManager.OnOpen | unity-rumtime-loader/Assets/scripts/NetworkManager.cs:66-73 | logs the opening, marks that socket open if it is the current one, and empties the logger's counters when there is a logger |
| Network.NetworkManager.OnError | unity-rumtime-loader/Assets/scripts/NetworkManager.cs:74 | a socket error only logs |
| Network.NetworkManager.OnClose | unity-rumtime-loader/Assets/scripts/NetworkManager.cs:75-86 | marks that socket closed if it is current, appends OnCloseOutcome's effects and keeps the flag the subscribers left |
| Network.NetworkManager.OnApplicationQuit | unity-rumtime-loader/Assets/scripts/NetworkManager.cs:55-59 | sets isQuitting (no method clears it) and requests a close of a present socket |
| Network.NetworkManager.Send | unity-rumtime-loader/Assets/scripts/NetworkManager.cs:195-211 | with a logger: trace and counters as SendOutcomeOf; with a null logger the call faults before anything is logged or sent |
| Network.NetworkManager.HandleMessage | unity-rumtime-loader/Assets/scripts/NetworkManager.cs:88-193 | a dropped frame changes nothing; with a null logger a routed frame faults at once; otherwise it is carried out as Carry states, so LogReceive runs exactly once, before the switch's effects, and only Ping then sends |
| Network.NetworkManager.Carry | unity-rumtime-loader/Assets/scripts/NetworkManager.cs:104-192 | a routed frame with a logger: the receive lines, then the switch's effects, then the reply's Send when there is one; only that Send moves the counters |
| Network.NetworkManager.TriggerMockCreateEvent | unity-rumtime-loader/Assets/scripts/NetworkManager.cs:214-218 | logs the id, then raises OnCreateProgObj with the given data if it has a subscriber; a null payload faults at the log line, subscriber or not |
| Entities.Register | unity-rumtime-loader/Assets/scripts/EntityManager.cs:24-31 | the keys become the old keys plus id; an existing id keeps its handle (never overwritten); a new id maps to the given handle |
| Entities.FirstRegistrationWins | unity-rumtime-loader/Assets/scripts/EntityManager.cs:24-31 | after any run of registrations the key set is the old one plus every id registered (it only grows); old entries are unchanged; a new id holds the handle of its first registration |
| Entities.EntityManager.constructor | unity-rumtime-loader/Assets/scripts/EntityManager.cs:9 | the registry starts empty |
| Entities.EntityManager.RegisterEntity | unity-rumtime-loader/Assets/scripts/EntityManager.cs:24-31 | the dictionary becomes Register of the old one, and the registration is logged only for a new id |
| Entities.EntityManager.GetEntity | unity-rumtime-loader/Assets/scripts/EntityManager.cs:33-37 | returns the registered handle when the id is present and null otherwise, changing nothing |
| Entities.ApplyPose | unity-rumtime-loader/Assets/scripts/EntityManager.cs:39-46 | with a null pose the target is unchanged (a null target has nothing to change); otherwise local position and scale are the pose's components and rotation is Euler of the pose's angles |
| Compiler.FirstWhere | unity-rumtime-loader/Assets/scripts/RoslynCodeRunner.cs:35 | FirstOrDefault: the index found satisfies the predicate and no earlier element does; none is found iff no element does |
| Compiler.ReferencesExactly | unity-rumtime-loader/Assets/scripts/RoslynCodeRunner.cs:58-71 | a path is among the loop's references iff some loaded assembly with that location is non-dynamic, has a non-empty location and can be read |
| Compiler.ReferencesLength | unity-rumtime-loader/Assets/scripts/RoslynCodeRunner.cs:58-71 | at most one reference per loaded assembly, and exactly one each when all qualify |
| Compiler.NetstandardListedTwice | unity-rumtime-loader/Assets/scripts/RoslynCodeRunner.cs:75-80 | when netstandard is loaded and already qualifies for the loop, its location occurs at least twice in the final list |
| Compiler.ErrorMessagesExactly | unity-rumtime-loader/Assets/scripts/RoslynCodeRunner.cs:98-101 | nothing is logged iff no diagnostic has Error severity; every logged message is that of an Error diagnostic; every Error diagnostic's message is logged; there is exactly one line per Error diagnostic |
| Compiler.ErrorsAllLogged | unity-rumtime-loader/Assets/scripts/RoslynCodeRunner.cs:98-101 | no Error diagnostic is skipped |
| Compiler.OneLinePerError | unity-rumtime-loader/Assets/scripts/RoslynCodeRunner.cs:98-101 | the number of logged lines equals the number of Error diagnostics |
| Compiler.Compile | unity-rumtime-loader/Assets/scripts/RoslynCodeRunner.cs:49-104 | bytes are returned exactly when emit over the reference list succeeds, and they are the emitted image; it throws exactly when reading netstandard fails |
| Compiler.InternalCompile | unity-rumtime-loader/Assets/scripts/RoslynCodeRunner.cs:49-104 | the two loops build the reference list and log exactly the Error diagnostics of a failed emit, giving Compile's outcome |
| Compiler.Attachment | unity-rumtime-loader/Assets/scripts/RoslynCodeRunner.cs:27-41 | at most one component per call; none unless compilation produced bytes; none if loading fails; otherwise the first type in assembly order that subclasses MonoBehaviour, or nothing when there is no such type |
| Compiler.CompileAndAttach | unity-rumtime-loader/Assets/scripts/RoslynCodeRunner.cs:18-47 | the target gains exactly Attachment's components, so a failed compile leaves it unchanged; load failures are logged, not propagated; only an exception from compiling leaves the call |

## Left out

- JSON text: parsing and serialising are the `Decoder` functions and the envelope values. `Protocol.Coherent` is an assumption about the library that the two envelope lemmas take as a hypothesis.
- A frame that is not valid JSON makes `JsonUtility.FromJson` throw, so in the source it leaves `HandleMessage` as an exception. The model does not have that exception: a `Decoder` function returns `None` for it, so it counts as a failed decode (the peek's `None` drops the frame).
- Payload string fields are plain strings. A null string inside a payload is not distinguished from other strings. The peek `type`, the envelopes and their `data` are nullable.
- WebSocket transport: framing, `Connect`, `SendText`, `Close` and `DispatchMessageQueue` (`Update`) are foreign I/O. The transport is represented by the callback methods and the `Transmit`/`CloseRequested` effects. The `OnMessage` lambda is `HandleMessage` itself, because UTF-8 decoding is part of the transport.
- The `Invoke` timer: a reconnect is the recorded `ScheduleReconnect(1.0)`. Time does not pass, and a timer firing is a later `ConnectToServer` call.
- Events whose subscribers are code outside the core: an event reaching its subscribers is the `Fire` effect, raised once however many there are. For the dispatcher's events the model records only which ones have a subscriber (`NetworkManager.listened`). Unsubscribing and a subscriber that throws are not modelled. `OnDisconnected` subscribers are modelled in order, as `Reaction`s on `autoReconnect`, because the reconnect rule reads that flag after them.
- Floating point: vector components are copied as `real`, and `Quaternion.Euler` is kept as the symbolic `Euler(x, y, z)`.
- `Fault`: where a NullReferenceException leaves a callback, the model records it and stops. What Unity or the socket library then does with the exception is not modelled.
- `Entities.ApplyPose`: requires position, rotation and scale to be present when target and pose are. The source dereferences them unguarded, and a null there would throw.
- `Compiler.CompileAndAttach`: the target is a non-null `GameObject`, as its only caller (`CreateProgObj.cs`) passes a new object. `AddComponent` is taken to succeed for every `MonoBehaviour` subclass. The `UniTask` thread-pool hop and the switch back to the main thread are concurrency and are not modelled; the method compiles first and attaches afterwards, in the order the source awaits them.
- `Path.GetRandomFileName` (the assembly name) is randomness and is not passed to the abstract emit.
- Singleton `Awake`/`Start` wiring and `DontDestroyOnLoad` are engine lifecycle plumbing.
- `CreateProgObj.cs` (asset download and scene glue) and `MockServerSimulator.cs` (a test harness driven by input and `Random.Range`) are not part of this model.
- `EntityControlData` (the payload of `ClaimEntity`/`ReleaseEntity`) is declared but never decoded, because those types have no case. No ownership arbitration or registry deletion is modelled, since the source has neither.
- Which payload class carries which fields (`scriptCode` and `gltf` only in `CreateProgObjData`, one `id` or `reason` in the small payloads) is stated by the datatype declarations in `data_models.dfy`, not by lemmas.
