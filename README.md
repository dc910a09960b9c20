# SSDP search session — a verified Dafny model

This project models the discovery core of an iOS example app that finds
network services with the Simple Service Discovery Protocol (SSDP). A search
session sends an M-SEARCH request (section 1.3.2 of the UPnP Device
Architecture 1.1) to the SSDP multicast group. It repeats the request on a
timer, stops at a timeout and filters and deduplicates the responses. It
reports to a delegate the services it finds, then either a normal stop or an
abort.

Three Swift components are modelled, each as a Dafny class whose methods
change its fields in place:

- the **newer session** (`SearchSession.Session`), which talks to a
  connection controller;
- the **legacy session** (`LegacySearchSession.LegacySession`), an older
  variant built on a single `NWConnection`;
- the **multicast connection controller**
  (`MulticastConnection.MulticastConnectionController`), which gates sends on
  the connection group's state.

The pure parts are functions with lemmas: the configuration and its defaults,
the M-SEARCH text, the target filter and the duplicate check, and the
durations. Durations are exact `real`s.

Modules, one per file: `Wrappers` (Option), `Text` (substring search, decimal
numerals, CRLF lines), `Ssdp` (service, configuration, response admission),
`Timing` (timeout and broadcast pacing), `Message` (the request text),
`SearchSession`, `LegacySearchSession`, `MulticastConnection`.

How the outside world is represented:

- The response parser is a function value `Data -> Option<Service>`, given to
  each session when it is built.
- A delegate is a recorded sequence of calls (`delegateCalls`). In the newer
  session, `closesAtCall` records, for each call, how many times the
  controller had been closed when it was made. This puts the calls and the
  closes in one order.
- A timer is a field holding its interval, or `None` when it is not armed.
- Each timer fire and each controller or connection callback is an explicit
  method call. Calls are delivered one at a time.
- The newer session's controller is a handle that records the messages it is
  asked to send and the number of times it is closed.

## Behaviour of the code as written

In each of these points the code does not do what the session's interface
leads a caller to expect: one terminal report per search, an idempotent stop,
a search that ends at its timeout. The model follows the code.

- **Newer `stopSearch`.** It has no guard. Every call closes the controller
  again and then reports `searchSessionDidStopSearch` again (`StopTwice`).
- **Newer error path.** A controller error reports `didEncounterError` first
  and closes afterwards, the reverse of the stop path. A later `stopSearch`
  still reports a normal stop, so both terminal reports can happen in one
  session (`ErrorThenStop`).
- **Newer start.** The session sends the first request directly from
  `startSearch`; it does not wait for a readiness signal. The controller is
  created, and its group started, in the session's initialiser. So even a
  zero-broadcast search has a controller, although it sends nothing.
- **Newer broadcast timer.** It repeats with no count of its own. The N
  sends come from the timeout: with a positive wait time, exactly N − 1 ticks
  fall strictly before it (`Timing.BroadcastTicksBeforeTimeout`).
- **Target filter.** A response is accepted when its target *contains* the
  configured target as a substring, or when the configured target is
  `ssdp:all`. Equality is not required.
- **Legacy `isListening`.** It starts false and nothing sets it, so
  `close(dueToError:)` never gets past its guard. Stop, timeout and error
  handling do nothing: no delegate call and no cancel. Both timer fields stay
  set. The one-shot timeout is spent once it has fired, but the broadcast
  timer goes on writing with no end (`LegacyStopDoesNothing`,
  `LegacyReceiveErrorSilent`).
- **Legacy `writeToConnection`.** It only logs, so nothing is sent
  (`LegacyReadyBroadcasts`).
- **Legacy `failed` state.** It is only logged (`LegacyFailureIgnored`).
- **Legacy receive guard.** Parsing goes ahead only when data is present and
  an error is given. A clean datagram is dropped (`LegacyReceiveGuard`).

## Model

| member | source | states |
|---|---|---|
| `Ssdp.CreateMulticastConfiguration` | SSDPDiscoveryWithNetwork-ExampleTests/Tests/SSDPSearchSessionConfigurationTests.swift:22-34 | keeps the search target, wait time and broadcast count, and uses host 239.255.255.250 and port 1900 |
| `Text.ContainsIffOccurs` | SSDPDiscoveryWithNetwork-Example/Networking/SSDP/SSDPSearchSession.swift:147 | the `contains` test holds exactly when the target occurs at some index of the service's target |
| `Ssdp.SearchedForServiceIff` | SSDPDiscoveryWithNetwork-Example/Networking/SSDP/SSDPSearchSession.swift:146-148 | the filter accepts exactly the services whose target holds the configured target as a substring, or every service when the target is `ssdp:all` |
| `Ssdp.ExactTargetIsSearchedFor` | SSDPDiscoveryWithNetwork-Example/Networking/SSDPSearchSession.swift:189-191 | a service reporting exactly the configured target always passes the filter |
| `Ssdp.Admit` | SSDPDiscoveryWithNetwork-Example/Networking/SSDP/SSDPSearchSession.swift:132-137 | a datagram yields a service only when it parses, passes the filter and is not already found; otherwise one of those guards failed |
| `Ssdp.AdmitKeepsFoundInvariant` | SSDPDiscoveryWithNetwork-Example/Networking/SSDP/SSDPSearchSession.swift:131-144 | handling a datagram only appends, and keeps the found list duplicate-free with every entry passing the filter |
| `Ssdp.AdmitIgnoresRepeat` | SSDPDiscoveryWithNetwork-Example/Networking/SSDP/SSDPSearchSession.swift:135 | once a service has been admitted, any datagram parsing to the same service is ignored and the list stays as it is |
| `Text.TruncateToInt` | SSDPDiscoveryWithNetwork-Example/Networking/SSDP/SSDPSearchSession.swift:50 | `Int(MX)` truncates toward zero: the result is within one of MX, on MX's side of zero |
| `Text.NatToDecimal` | SSDPDiscoveryWithNetwork-Example/Networking/SSDP/SSDPSearchSession.swift:47 | the port is rendered as a non-empty string of decimal digits without a leading zero |
| `Text.DecimalRoundTrip` | SSDPDiscoveryWithNetwork-Example/Networking/SSDP/SSDPSearchSession.swift:47 | reading back the rendered port number gives the port number |
| `Text.IntRoundTrip` | SSDPDiscoveryWithNetwork-Example/Networking/SSDP/SSDPSearchSession.swift:50 | reading back the rendered MX integer, sign included, gives that integer |
| `Text.SplitTerminated` | SSDPDiscoveryWithNetwork-Example/Networking/SSDP/SSDPSearchSession.swift:45 | text made of CRLF-terminated lines without carriage returns splits back into exactly those lines |
| `Message.MSearchMessageLines` | SSDPDiscoveryWithNetwork-Example/Networking/SSDP/SSDPSearchSession.swift:44-52 | the request is exactly six CRLF-terminated lines: request line, HOST host:port, MAN "ssdp:discover", ST target, MX truncated seconds, empty line |
| `Message.RequestIsTerminated` | SSDPDiscoveryWithNetwork-Example/Networking/SSDP/SSDPSearchSession.swift:46-51 | the request text is exactly its six lines, each followed by CRLF, in the order written |
| `Timing.LastBroadcastLeavesFullWindow` | SSDPDiscoveryWithNetwork-Example/Networking/SSDP/SSDPSearchSession.swift:113-116 | N − 1 broadcast intervals after the first send, exactly one wait period remains before the timeout |
| `Timing.BroadcastTicksBeforeTimeout` | SSDPDiscoveryWithNetwork-Example/Networking/SSDP/SSDPSearchSession.swift:113-121 | with a positive wait, the k-th repeat comes strictly before the timeout exactly when k < N, so N sends go out |
| `Timing.LegacyTicksBeforeTimeout` | SSDPDiscoveryWithNetwork-Example/Networking/SSDPSearchSession.swift:122-147 | with a wait of at least 0.1 s, the legacy timer's k-th fire (every MX, first at once) comes before the timeout exactly when k ≤ N: N + 1 writes |
| `SearchSession.Session.constructor` | SSDPDiscoveryWithNetwork-Example/Networking/SSDP/SSDPSearchSession.swift:60-65 | fixes the timeout at N·MX + 0.1, starts with an empty found list, no timers and no delegate calls, and installs the session as the controller's delegate |
| `SearchSession.Session.Create` | SSDPDiscoveryWithNetwork-Example/Networking/SSDP/SSDPSearchSession.swift:56-59 | yields no session exactly when the factory gives no controller; otherwise a fresh valid session that is the controller's delegate |
| `SearchSession.Session.StartSearch` | SSDPDiscoveryWithNetwork-Example/Networking/SSDP/SSDPSearchSession.swift:70-83 | with N = 0, reports a stop with the unchanged found list (made with the close count unchanged), sends nothing and arms nothing; otherwise sends the request once, arms the broadcast timer only when N > 1, and arms the timeout |
| `SearchSession.Session.SendMSearchMessages` | SSDPDiscoveryWithNetwork-Example/Networking/SSDP/SSDPSearchSession.swift:110-122 | arms a broadcast timer of (timeout − MX)/(N − 1) only when N > 1, then sends the request once |
| `SearchSession.Session.OnBroadcastTick` | SSDPDiscoveryWithNetwork-Example/Networking/SSDP/SSDPSearchSession.swift:117-119 | each fire sends the same request text again and touches nothing else |
| `SearchSession.Session.OnTimeout` | SSDPDiscoveryWithNetwork-Example/Networking/SSDP/SSDPSearchSession.swift:80-88 | the timeout stops the search: both timers gone, controller closed, and only then the stop reported with the found list |
| `SearchSession.Session.StopSearch` | SSDPDiscoveryWithNetwork-Example/Networking/SSDP/SSDPSearchSession.swift:90-95 | closes, then reports a stop with the current found list: the report is made with the close count already raised by one, on every call |
| `SearchSession.Session.Close` | SSDPDiscoveryWithNetwork-Example/Networking/SSDP/SSDPSearchSession.swift:99-106 | both timers become nil and the controller is closed once more |
| `SearchSession.Session.OnResponse` | SSDPDiscoveryWithNetwork-Example/Networking/SSDP/SSDPSearchSession.swift:131-144 | an empty or unadmitted response changes nothing; an admitted one is appended and reported once, with no close in between; the found list stays duplicate-free, filtered and equal to the services reported |
| `SearchSession.Session.OnControllerError` | SSDPDiscoveryWithNetwork-Example/Networking/SSDP/SSDPSearchSession.swift:150-155 | reports the error wrapped as searchAborted while the close count is still the old one, then closes; no stop is reported |
| `SearchSession.ZeroBroadcastSearch` | SSDPDiscoveryWithNetwork-Example/Networking/SSDP/SSDPSearchSession.swift:71-74 | with N = 0 a started session reports one empty stop, sends nothing and has no timer |
| `SearchSession.TwoBroadcastSearch` | SSDPDiscoveryWithNetwork-Example/Networking/SSDP/SSDPSearchSession.swift:110-122 | target urn:test:service:1, MX 1, N 2: timeout 2.1, interval 1.1, two identical sends, then an empty stop with no timers left |
| `SearchSession.DuplicateResponseSearch` | SSDPDiscoveryWithNetwork-Example/Networking/SSDP/SSDPSearchSession.swift:131-144 | the same matching response twice gives one found service, one report, and a stop listing it once |
| `SearchSession.MismatchedResponseSearch` | SSDPDiscoveryWithNetwork-Example/Networking/SSDP/SSDPSearchSession.swift:134 | a response failing the target filter is neither stored nor reported |
| `SearchSession.StopTwice` | SSDPDiscoveryWithNetwork-Example/Networking/SSDP/SSDPSearchSession.swift:90-106 | two stops close the controller twice and report a stop twice, each report after its own close (close counts 1 and 2) |
| `SearchSession.ErrorThenStop` | SSDPDiscoveryWithNetwork-Example/Networking/SSDP/SSDPSearchSession.swift:150-155 | an error after start gives one wrapped error report, made before any close (count 0), with both timers gone; a later stop closes again and still reports a stop (count 2) |
| `LegacySearchSession.LegacySession.constructor` | SSDPDiscoveryWithNetwork-Example/Networking/SSDPSearchSession.swift:38-45 | creates an unstarted connection to the configured host and port, with `isListening` false and nothing found |
| `LegacySearchSession.LegacySession.StartSearch` | SSDPDiscoveryWithNetwork-Example/Networking/SSDPSearchSession.swift:53-62 | only starts the connection; it neither broadcasts nor sets `isListening` |
| `LegacySearchSession.LegacySession.StopSearch` | SSDPDiscoveryWithNetwork-Example/Networking/SSDPSearchSession.swift:69-72 | closes with no error: a stop report when listening, nothing otherwise; writes and the connection's started flag stay as they were |
| `LegacySearchSession.LegacySession.OnTimeout` | SSDPDiscoveryWithNetwork-Example/Networking/SSDPSearchSession.swift:64-67 | the timeout marks its one-shot timer spent, then closes with no error, with the same guard; nothing else changes |
| `LegacySearchSession.LegacySession.StateDidChange` | SSDPDiscoveryWithNetwork-Example/Networking/SSDPSearchSession.swift:74-92 | only `ready` broadcasts; every other state, `failed` included, changes nothing |
| `LegacySearchSession.LegacySession.Close` | SSDPDiscoveryWithNetwork-Example/Networking/SSDPSearchSession.swift:96-112 | when not listening, nothing changes; otherwise both timers nil, listening off, connection cancelled, and exactly one call: the abort when an error is given, else the stop with the found list; afterwards not listening, so a second close is a no-op |
| `LegacySearchSession.LegacySession.HandleError` | SSDPDiscoveryWithNetwork-Example/Networking/SSDPSearchSession.swift:114-118 | closes with the error wrapped as searchAborted; writes and the connection's started flag stay as they were |
| `LegacySearchSession.LegacySession.Broadcast` | SSDPDiscoveryWithNetwork-Example/Networking/SSDPSearchSession.swift:122-134 | arms a fresh (not yet fired) timeout of N·MX + 0.1, a broadcast timer of MX, and writes the request once |
| `LegacySearchSession.LegacySession.BroadcastMultipleSearchRequests` | SSDPDiscoveryWithNetwork-Example/Networking/SSDPSearchSession.swift:136-147 | arms a timer repeating every MX and fires it once at once |
| `LegacySearchSession.LegacySession.OnBroadcastTick` | SSDPDiscoveryWithNetwork-Example/Networking/SSDPSearchSession.swift:138-140 | each fire writes the same request again |
| `LegacySearchSession.LegacySession.WriteToConnection` | SSDPDiscoveryWithNetwork-Example/Networking/SSDPSearchSession.swift:149-155 | records the write; the connection's sent list stays empty (an invariant) |
| `LegacySearchSession.LegacySession.ProcessResponse` | SSDPDiscoveryWithNetwork-Example/Networking/SSDPSearchSession.swift:169-187 | no error: nothing changes; error without data: handled as an abort; data with an error: an admitted service is appended and reported once, with timers, writes and the connection untouched |
| `LegacySearchSession.LegacyReadyBroadcasts` | SSDPDiscoveryWithNetwork-Example/Networking/SSDPSearchSession.swift:122-165 | after start and ready: timeout N·MX + 0.1, interval MX, the request written at once and on each tick, nothing sent |
| `LegacySearchSession.LegacyStopDoesNothing` | SSDPDiscoveryWithNetwork-Example/Networking/SSDPSearchSession.swift:96-99 | after start, ready, timeout and stop: no delegate call, no cancel, both timer fields still set, the timeout spent, and the broadcast timer still writing |
| `LegacySearchSession.LegacyFailureIgnored` | SSDPDiscoveryWithNetwork-Example/Networking/SSDPSearchSession.swift:87-88 | a failed state gives no delegate call and arms no timer |
| `LegacySearchSession.LegacyReceiveGuard` | SSDPDiscoveryWithNetwork-Example/Networking/SSDPSearchSession.swift:169-191 | after start, a wanted datagram without an error is dropped; delivered twice with an error, it is found and reported once |
| `LegacySearchSession.LegacyReceiveErrorSilent` | SSDPDiscoveryWithNetwork-Example/Networking/SSDPSearchSession.swift:170-175 | a receive error without data reports nothing and cancels nothing |
| `MulticastConnection.AbleToSendExactly` | SSDPDiscoveryWithNetwork-Example/Networking/Connections/MulticastConnectionController.swift:103-134 | the send gate is open exactly in `setup` and `ready`, and closed when waiting, failed or cancelled |
| `MulticastConnection.MulticastConnectionController.constructor` | SSDPDiscoveryWithNetwork-Example/Networking/Connections/MulticastConnectionController.swift:39-49 | a started group in the `setup` state, with nothing sent or reported |
| `MulticastConnection.MulticastConnectionController.Create` | SSDPDiscoveryWithNetwork-Example/Networking/Connections/MulticastConnectionController.swift:33-37 | no controller exactly when no multicast group can be built for the host and port |
| `MulticastConnection.MulticastConnectionController.ConnectionStateDidChange` | SSDPDiscoveryWithNetwork-Example/Networking/Connections/MulticastConnectionController.swift:51-67 | only `failed(error)` calls the delegate, with that same error |
| `MulticastConnection.MulticastConnectionController.ResponseReceivedFromConnection` | SSDPDiscoveryWithNetwork-Example/Networking/Connections/MulticastConnectionController.swift:69-75 | nil content is dropped; content is passed on unchanged |
| `MulticastConnection.MulticastConnectionController.SendMessage` | SSDPDiscoveryWithNetwork-Example/Networking/Connections/MulticastConnectionController.swift:79-88 | in `setup` or `ready` the message is handed to the group; in any other state nothing is sent or reported |
| `MulticastConnection.MulticastConnectionController.OnSendCompleted` | SSDPDiscoveryWithNetwork-Example/Networking/Connections/MulticastConnectionController.swift:88-93 | a completion error is passed to the delegate; a nil completion does nothing |
| `MulticastConnection.MulticastConnectionController.Close` | SSDPDiscoveryWithNetwork-Example/Networking/Connections/MulticastConnectionController.swift:98-100 | only requests the group's cancellation |
| `MulticastConnection.SendsStopAfterCancel` | SSDPDiscoveryWithNetwork-Example/Networking/Connections/MulticastConnectionController.swift:79-83 | a send during setup goes out; after close and the `cancelled` state later sends are dropped silently |
| `MulticastConnection.FailuresReported` | SSDPDiscoveryWithNetwork-Example/Networking/Connections/MulticastConnectionController.swift:51-67 | from ready, waiting and failed states and two sends, only the send error and the failure are reported, in order |
| `MulticastConnection.ForwardsContent` | SSDPDiscoveryWithNetwork-Example/Networking/Connections/MulticastConnectionController.swift:69-75 | a nil delivery is dropped and real content reaches the delegate byte for byte |

## Left out

- Network framework I/O is not modelled: creating and joining `NWConnection`, `NWConnectionGroup` and `NWMulticastGroup`, and real datagram sends and receives. A send is an append to a recorded list.
- UTF-8 encoding is not modelled. The controller records the message string whose UTF-8 bytes it hands to the group.
- Timers are not modelled as wall-clock events. This covers firing, `RunLoop.main` registration and the callback queues. A fire is a method call, a timer is its interval, and concurrency is not modelled.
- `TimeInterval` is a `real`, not an IEEE double. Swift's trap on `Int(x)` for a non-finite or out-of-range `x` is not modelled.
- The delegate is assumed present: the trace records the calls a non-nil delegate would receive. Weak references, `deinit` (the legacy session's calls `stopSearch`) and `os_log` are left out.
- The parser is a parameter, not an implementation. `SSDPService` is a value with its target and one opaque identity field, and equality is datatype equality. `SSDPServiceParser` and `SSDPSearchSessionConfiguration` are not part of this model.
- `ConnectionControllerFactory.swift` (a pass-through constructor), `DateFactory.swift` and the test mocks are left out.
- `SearchSession.Session.Create`: the factory is represented by its result. The model does not state that the factory was called with the configuration's host and port.
- `SearchSession.ConnectionControllerHandle` stands for the controller protocol. The newer session is not wired to `MulticastConnection.MulticastConnectionController`, whose state gating is modelled on its own.
- `SearchSession.Session.StartSearch`: a second call overwrites the timer fields. The model keeps only the latest value, so it does not capture that the source, which does not invalidate the earlier timers, leaves them scheduled.
- `LegacySearchSession.LegacySession.ProcessResponse`: the receive completion is registered once, by `startSearch`, in the source. The model lets it be called any number of times, also before the search is started.
- `LegacySearchSession.LegacySession.StateDidChange`: a second `ready` overwrites both timer fields. The source leaves the earlier timers scheduled, and the model does not capture that.
- `LegacySearchSession.LegacySession.constructor`: the `fatalError` for an invalid port is unreachable, because the model's `Port` type is already a `UInt16`.
- `Text.Contains` compares Unicode code points. Swift compares grapheme clusters under canonical equivalence, so the two can differ on targets that differ only in normalisation or combining marks. For example, the model finds "e" in "e" followed by a combining acute accent, and Swift does not. For ASCII targets, the usual SSDP case, both agree. The model also treats an empty target as contained in every string; Foundation and the standard library have differed on `contains("")` across Swift versions.
- The `@unknown default` branches of both state switches are not modelled, since the state datatypes are closed.
