# WebSocket build notifier client: alert policy and connection slot

This project models the core of the WebSocket notifier client's main form
(`WebSocketNotifierClient/MainForm.cs`). The form holds one WebSocket
connection to a build server. Each frame it receives is parsed into a build
result, and the result decides which balloon tip is shown and which wave file
is played. The model has two parts.

- **Alert policy** (`alerts.dfy`, `results.dfy`). The handlers
  `OnRecievedMessage`, `PlaySound`, `OnError` and `OnThreadException` are
  pure functions. Each returns the effects it performs, in order (a balloon,
  a playback), and the exception it lets escape, if any. Their two if-chains
  are modelled literally and then proved equal to an independent decision
  table (`AlertFor`, `WavName`). `OnRecievedMessage` checks Failure first and
  `PlaySound` checks Success first. That difference is harmless because
  `Outcome` is a sum type, so a result satisfies exactly one of the four
  predicates, or none when the outcome is `Other` (`ExactlyOnePredicate`).
  The model relies on this assumption about the `BuildResult` class, whose
  source is not part of this model.
- **Connection slot** (`slot.dfy`, `client.dfy`). The `_client` field and the
  `WebSocket` objects it refers to are classes on the heap. `OpenClient` and
  `OnApplicationExit` are methods, proved against the value-level functions
  `Slot.Open` and `Slot.Exit`. A ghost `history` keeps every connection the
  form has created, and a connection's id is its position in that history.
  The invariant `Slot.Inv` says four things:
  - only the held connection is open;
  - the held connection is the newest one;
  - it carries exactly one message handler and one error handler;
  - no connection ever holds the same handler twice.

  From `Slot.Inv`, `Slot.SubscribersOfInv` proves there is no duplicate
  delivery: an inbound message or error reaches the form's handler exactly
  once while a connection is held, and not at all otherwise.

External inputs are parameters:
- the parser (`string -> BuildResult`);
- `Settings.Default.Url` and `Settings.Default.ShowErrorOnly`;
- the `Resources.WebSocketServerName` balloon title, the program directory,
  `File.Exists`, and whether `SoundPlayer.PlaySync` throws (all in `Alerts.Host`).

The comment in the playback `catch` block (MainForm.cs:113-117) suggests that
a playback failure is swallowed. The block re-throws, however, so the
exception propagates. The model follows the code: `Handled.thrown` carries
that exception out of `PlaySound` and `OnRecievedMessage`.

## Model

| member | source | states |
|---|---|---|
| Results.ExactlyOnePredicate | WebSocketNotifierClient/MainForm.cs:82-101 | a recognised result satisfies exactly one of IsSuccess/IsFailure/IsUnstable/IsAborted, an unrecognised one none, so the order of the checks does not matter |
| Alerts.PlayWav | WebSocketNotifierClient/MainForm.cs:103-118 | playback of the chosen file, joined to the program directory, is attempted exactly when that path exists, at most once; a PlaySync exception is re-thrown, and nothing is thrown when nothing was played |
| Alerts.ShowBalloon | WebSocketNotifierClient/MainForm.cs:122-126 | a balloon carries the given icon and message under the server-name title resource |
| Alerts.SoundFile | WebSocketNotifierClient/MainForm.cs:82-101 | the Success-first chain picks exactly the file the outcome table WavName assigns, and none for an unrecognised outcome |
| Alerts.PlaySound | WebSocketNotifierClient/MainForm.cs:77-119 | an unrecognised outcome does nothing at all; otherwise the outcome's file is played iff it exists in the program directory; an exception thrown by an attempted playback is re-thrown unchanged, and none is thrown when nothing was played |
| Alerts.OnRecievedMessage | WebSocketNotifierClient/MainForm.cs:42-75 | at most a balloon then a playback; a balloon always has the server-name title and the result's message, and what follows it is exactly PlaySound's effect and exception; a Failure always shows an Info balloon; with ShowErrorOnly every non-Failure does nothing; an unrecognised outcome does nothing |
| Alerts.OnError | WebSocketNotifierClient/MainForm.cs:37-40 | a transport error shows one Error balloon with the error's message, plays nothing and throws nothing |
| Alerts.OnThreadException | WebSocketNotifierClient/MainForm.cs:32-35 | an exception on the UI thread shows one Error balloon with its message and nothing else |
| Alerts.WavNameInjective | WebSocketNotifierClient/MainForm.cs:82-101 | no two outcomes share a sound file |
| Alerts.OnRecievedMessageFollowsTable | WebSocketNotifierClient/MainForm.cs:47-74 | the Failure-first chain of OnRecievedMessage performs exactly what the decision table AlertFor calls for, for every input and both values of ShowErrorOnly |
| Alerts.FailureAlwaysAlerts | WebSocketNotifierClient/MainForm.cs:47-52 | a Failure shows an Info balloon with its message and then tries failure.wav, whatever ShowErrorOnly says |
| Alerts.NonFailureAlerts | WebSocketNotifierClient/MainForm.cs:60-74 | without ShowErrorOnly, Success gives Info and success.wav, Unstable gives Warning and unstable.wav, Aborted gives Info and aborted.wav |
| Slot.RemoveDropsOneRegistration | WebSocketNotifierClient/MainForm.cs:134-135 | on an invocation list, `-=` removes exactly one registration of the handler when there is one, none otherwise, and leaves other handlers' registrations alone, so a per-handler count with Unsubscribe is a faithful abstraction |
| Slot.Retire | WebSocketNotifierClient/MainForm.cs:132-137 | the replaced connection ends closed, with its URL and connect state kept, and with no handlers once it had at most one of each |
| Slot.Opened | WebSocketNotifierClient/MainForm.cs:138-141 | the connection OpenClient creates records its URL, has had Connect issued, and delivers each event kind to the form exactly once |
| Slot.Open | WebSocketNotifierClient/MainForm.cs:130-142 | after OpenClient the slot holds a new connection, the newest, for the given URL; only the previously held connection is retired and every other one is left as it was |
| Slot.Exit | WebSocketNotifierClient/MainForm.cs:23-30 | after exit the slot is empty; the held connection, if any, is closed (its handlers stay registered) and nothing else changes |
| Slot.InitialInv | WebSocketNotifierClient/MainForm.cs:11 | the empty slot of a new form satisfies the replacement invariant |
| Slot.SubscribersOfInv | WebSocketNotifierClient/MainForm.cs:130-142 | under the invariant, an event reaches the form's handler exactly once if a connection is held and never otherwise (no duplicate delivery) |
| Slot.OpenKeepsInv | WebSocketNotifierClient/MainForm.cs:130-142 | OpenClient preserves the replacement invariant |
| Slot.ExitKeepsInv | WebSocketNotifierClient/MainForm.cs:23-30 | OnApplicationExit preserves the replacement invariant |
| Slot.OpenHoldsExactlyOne | WebSocketNotifierClient/MainForm.cs:138-141 | after OpenClient the held connection is the one for the given URL with one handler of each kind, it is the only open one, and messages and errors are each delivered exactly once |
| Slot.OpenRetiresPrevious | WebSocketNotifierClient/MainForm.cs:132-137 | the connection OpenClient replaces has zero handlers and is closed, and nothing else about it changes |
| Slot.ExitSilences | WebSocketNotifierClient/MainForm.cs:25-29 | after OnApplicationExit every connection is closed and neither messages nor errors reach any handler |
| Slot.ExitIdempotent | WebSocketNotifierClient/MainForm.cs:25-29 | a second OnApplicationExit changes nothing |
| Client.WebSocket.constructor | WebSocketNotifierClient/MainForm.cs:138 | a new WebSocket records its URL, has no handlers, and is neither closed nor connecting |
| Client.WebSocket.SubscribeMessage | WebSocketNotifierClient/MainForm.cs:139 | `OnMessage +=` adds one registration and changes nothing else |
| Client.WebSocket.UnsubscribeMessage | WebSocketNotifierClient/MainForm.cs:134 | `OnMessage -=` removes one registration if there is one and changes nothing else |
| Client.WebSocket.SubscribeError | WebSocketNotifierClient/MainForm.cs:140 | `OnError +=` adds one registration and changes nothing else |
| Client.WebSocket.UnsubscribeError | WebSocketNotifierClient/MainForm.cs:135 | `OnError -=` removes one registration if there is one and changes nothing else |
| Client.WebSocket.Close | WebSocketNotifierClient/MainForm.cs:136 | Close marks the connection closed and changes nothing else |
| Client.WebSocket.Connect | WebSocketNotifierClient/MainForm.cs:141 | Connect records that the connect was issued and changes nothing else |
| Client.MainForm.constructor | WebSocketNotifierClient/MainForm.cs:11-21 | a new form holds no connection and satisfies the invariant |
| Client.MainForm.OpenClient | WebSocketNotifierClient/MainForm.cs:130-142 | the heap state after OpenClient is Slot.Open of the state before; it holds a fresh connection for the URL, keeps the invariant, and delivers each event exactly once |
| Client.MainForm.OnApplicationExit | WebSocketNotifierClient/MainForm.cs:23-30 | the heap state after exit is Slot.Exit of the state before; the slot is empty, the invariant holds, and no event is delivered |

## Left out

- Alerts.ShowBalloon: `NotifyIcon.ShowBalloonTip` (MainForm.cs:127) is assumed not to throw. WinForms rejects an empty balloon text and a negative timeout, and neither check is modelled. For a Failure whose message is empty, the model shows the balloon and goes on to `failure.wav`. The code would throw at line 49 instead and never reach `PlaySound`. `OnRecievedMessage`, `OnError`, `OnThreadException` and `FailureAlwaysAlerts` inherit the assumption.

- Client.MainForm.OpenClient: the `WebSocket` constructor (MainForm.cs:138) is assumed to accept every URL. WebSocketSharp's constructor is not part of this model. If it rejects the URL, the old connection has already been unregistered and closed at lines 134-136, and `_client` keeps pointing at it. That partial-failure state is not modelled. In it, `Slot.Inv` would not hold and no event would be delivered.
- Slot.Handlers: a closed connection is assumed to deliver no events. `Slot.ExitSilences` rests on this assumption, because `OnApplicationExit` leaves the form's handlers registered (MainForm.cs:27). A subscribed handler is counted rather than kept in an invocation list. `Slot.RemoveDropsOneRegistration` justifies that count.

- `BuildResult.Parse` and `ToMessage` are not part of this model. The parser is a function parameter, and `BuildResult.message` stands for the text `ToMessage()` renders. The wire format is not modelled.
- `ShowBalloon` rendering and the `(int)(BalloonTipTimeout * 1000)` timeout conversion (MainForm.cs:122-128) are not modelled. This is UI code plus float-to-int arithmetic. A balloon is an effect that carries its icon, title and text.
- `SoundPlayer.PlaySync` is not modelled as audio. `Host.playFault` says whether it throws and with what message. The `using` disposal is not modelled.
- `Assembly.GetEntryAssembly().Location`, `Path.Combine` and `File.Exists` are filesystem access and become inputs. `Path.Combine` is kept as the pair (directory, file), without separator handling.
- `WebSocket.Connect` is network I/O. The model records only that it was called. Connection states beyond "closed" and "connect issued" are not modelled, and neither are connect failures reported through `OnError`.
- What WebSocketSharp does with an exception re-thrown out of `OnRecievedMessage` is not modelled. `thrown` reports it, and the model ends there.
- Callback threading is not modelled, and neither is the host-event wiring of `Application.ThreadException` and `Application.ApplicationExit` (MainForm.cs:19-20). Both are concurrency and host plumbing. The handlers are modelled one call at a time.
- The tray icon setup, the settings dialog and the menu click handlers (MainForm.cs:15-18, 144-156) are UI code and are not modelled.
