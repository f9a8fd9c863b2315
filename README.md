# Tello drone client — a Dafny model

This project models the control logic of a Python client for the DJI Tello
drone, and proves properties of it. The client talks to the drone through
UDP text commands (`command`, `takeoff`, `rc a b c d`, `battery?`, ...). It
reads telemetry replies into three display texts: battery, flight time and
status. It drives the drone from the keyboard or from a camera-based line
follower.

The repository has three generations of the client. Each is modelled
module by module, in the form its source takes (classes over fields where
the source updates state, functions and lemmas where it only computes).

- `Networking`: the connection-aware client of `src/fbl2024/networking.py`.
  - Sends go through a connection gate, and a failed send demotes the link.
  - The receiver marks the link live on every datagram and ends at the first error.
  - `connect` sends `command` and waits five seconds for `Status:ok`.
  - The status poller demotes the link after more than five seconds of silence.
- `Movement`: the gated command helpers of `src/fbl2024/movement.py`.
- `RcMovement`: the helpers of the top-level `movement.py`. RC commands go straight to the socket, past the gate, with errors caught.
- `Teleop`: the keyboard client of the top-level `main.py`.
  - A key listener keeps a table of held keys.
  - Each camera pass reads one discrete key (ESC, takeoff, land, emergency stop), then sends one RC command built from the held keys.
  - A lost frame demotes the link. The pass then goes on over a black placeholder frame, which the model takes to be built without error (see "## Left out").
- `TraceNetworking` and `TraceMovement`: the line tracer's client of `src/fbl2024/linetrace/`.
  - There is no connection state.
  - Receive errors are swallowed.
  - The poller strictly alternates the two queries.
  - The receiver and the poller run from the constructor on, so their steps can fall among the start-up sends; only queries come in between.
  - `close` sends `streamoff`.
- `LineTrace`: the steering rule of `src/fbl2024/linetrace/linetrace.py`.
  - The background label is dropped and the largest component is picked, the first on a tie.
  - When armed, the tracer sends `rc 0 b 0 yaw`. The yaw has a ±50-pixel dead band around column 240 and saturates at ±70.
- `TraceLoop`: the main loop of `src/fbl2024/linetrace/main.py`.
  - Eight keys call helpers the tracer's movement class lacks, so they end the program through `finally`.
  - The forward speed `b` stays a multiple of 10 in [0, 100].
  - A `command` keep-alive goes out after more than five seconds.
  - Every exit closes the link.
- `DroneTest`: the stand-alone script `src/fbl2024/drone_test.py`. It keeps its state in globals, sends everything straight to the socket, and binds eleven keys to the movement helpers. Its receiver and poller start before the handshake, and their steps interleave with the start-up sends and with the frames.

Three modules are shared:
- `Text`: Python's `strip`, `isdecimal`, `endswith`, `s[-1:]`, integer formatting and `split(' ')`.
- `Commands`: the grammar of the commands the client sends. `Commands.Parse` reads a command text back. The client never parses commands itself (the drone does), so `Parse` is a reference reader. It is used to prove that every text the client formats says what it is meant to say.
- `Telemetry`: the reply classifier shared by all three receivers.

Sockets, clocks and OpenCV are not modelled. Their outcomes enter as parameters:
- every send has an `ok` flag;
- every receive is a `Payload(text)` or a `Failure`;
- clock readings are `real` seconds;
- the camera delivers, per frame, its connected components, or nothing.

Concurrent threads are not run in parallel: each thread's work becomes atomic steps interleaved with the main program's.
- In the top-level `main.py`, the keyboard listener's callbacks, the receiver's datagrams and the poller's rounds are ticks of the camera loop.
- In the line tracer, the receiver's datagrams and `ask`'s rounds are ticks of the main loop, and they also interleave with the constructor's three start-up sends.
- In `drone_test.py`, the same two threads' steps are ticks of the main loop, and they also interleave with the two start-up sends.

Where the code and its comments disagree, the model follows the code:
- `linetrace/main.py` calls `movement.forward()` and seven other helpers that `linetrace/movement.py` has commented out. Those keys raise `AttributeError` and end the program (after `close`), and the model keeps that outcome (`TraceLoop.Missing`, `TraceLoop.Crashed`).
- The top-level `main.py` prints "Landing and shutting down." and then calls `land` through the connection gate. After a lost frame the link is down, so `land` and `streamoff` are dropped (the console message is not modelled) (`Teleop.ShutdownNeedsLink`). This assumes the lost-frame pass gets as far as the ESC check; see the Teleop.FramePass line under "## Left out".

## Model

| member | source | states |
|---|---|---|
| Text.Strip | src/fbl2024/networking.py:72 | the result is a contiguous slice of the reply, no longer than it, that neither starts nor ends with whitespace |
| Text.StripIdempotent | src/fbl2024/networking.py:72 | stripping an already stripped reply changes nothing |
| Text.LastSliceIsEndsWith | src/fbl2024/linetrace/networking.py:42 | `resp[-1:] == "s"` holds exactly when `resp.endswith('s')` does |
| Text.DecimalNeverEndsWithS | src/fbl2024/networking.py:76-79 | an all-decimal reply never ends in 's', so the battery and flight-time branches never compete |
| Text.IntToString | movement.py:14 | an integer formatted by an f-string is non-empty, has no space, and starts with '-' exactly when negative |
| Text.NatToString | src/fbl2024/movement.py:47 | a natural number formats as decimal digits without a leading zero, and as one digit exactly when below 10 |
| Text.ParseIntToString | movement.py:14 | reading a formatted integer back gives the integer |
| Text.SplitJoin | src/fbl2024/linetrace/movement.py:40 | splitting on single spaces recovers exactly the space-free words that were joined |
| Commands.Format | src/fbl2024/movement.py:5-47 | the text each command is sent as: its words joined by single spaces (what is proved of it: Commands.ParseFormat, Commands.FormatInjective) |
| Commands.Parse | src/fbl2024/movement.py:5-47 | a reference reader of command texts, on the drone's side of the protocol; it reads back every text the helpers format (Commands.ParseFormat) |
| Commands.Words | movement.py:14-48 | every command has at least one word and no word contains a space |
| Commands.RcText | movement.py:14 | the text `rc {a} {b} {c} {d}` is the RC command's words joined by single spaces |
| Commands.ParseFormat | src/fbl2024/movement.py:5-47 | every command text the client formats reads back as that command |
| Commands.FormatInjective | movement.py:14-48 | distinct commands have distinct texts |
| Commands.RcTextRoundTrip | movement.py:14 | the four RC values are recovered exactly from the RC text |
| Commands.RcExample | src/fbl2024/linetrace/movement.py:40 | `rc -50 0 25 100` is the text of RC (-50, 0, 25, 100) and reads back as it |
| Telemetry.Classify | src/fbl2024/networking.py:76-81 | the receiver's three-way split: an all-decimal reply is a battery level, otherwise one ending in 's' is a flight time, anything else a status (Telemetry.ClassifyExamples, Text.DecimalNeverEndsWithS) |
| Telemetry.ClassifyBySlice | src/fbl2024/linetrace/networking.py:40-45 | the same split with `resp[-1:] == "s"` in place of `endswith` (Telemetry.SliceClassifierAgrees) |
| Telemetry.Publish | src/fbl2024/networking.py:76-81 | the receiver's text update: the text of the reply's kind becomes its rendering (Telemetry.PublishUpdatesOneField, Telemetry.StatusOkOnlyFromOk) |
| Telemetry.PublishBySlice | src/fbl2024/drone_test.py:18-24 | the update the slice-testing receivers make (Telemetry.PublishBySliceAgrees) |
| Telemetry.SliceClassifierAgrees | src/fbl2024/linetrace/networking.py:40-45 | classifying with `resp[-1:] == "s"` agrees with classifying with `endswith('s')` on every reply |
| Telemetry.PublishBySliceAgrees | src/fbl2024/drone_test.py:18-24 | the slice-testing receivers update the texts exactly as the `endswith` receiver does |
| Telemetry.PublishUpdatesOneField | src/fbl2024/networking.py:76-81 | a reply overwrites exactly the text of its kind with its rendering and leaves the other two unchanged |
| Telemetry.RenderInjective | src/fbl2024/networking.py:76-81 | different replies of one kind are displayed differently |
| Telemetry.StatusOkOnlyFromOk | src/fbl2024/networking.py:45 | the status text reads "Status:ok" after a reply exactly when the reply was "ok", or it already did and the reply updated another text |
| Telemetry.ClassifyExamples | src/fbl2024/drone_test.py:17-24 | "87" is a battery level, "12s" a flight time, "ok" and the empty reply are status replies |
| Networking.Initial | src/fbl2024/networking.py:26-32 | the client starts disconnected, with no response time, an empty log and the texts "Battery:", "Time:", "Status: Disconnected" |
| Networking.Send | src/fbl2024/networking.py:55-65 | `send_command`: the gate, then one socket send whose failure demotes the link (Networking.GateBlocksWhileDisconnected, Networking.SendOutcome) |
| Networking.Receive | src/fbl2024/networking.py:70-85 | one pass of the receive loop: a datagram stamps the clock, marks the link live and publishes the stripped text; an error demotes the link (Networking.ReceiveAssertsLiveness) |
| Networking.ReceiveStream | src/fbl2024/networking.py:67-85 | the receive loop over a datagram stream, ending at the first error (Networking.ReceiveStreamStopsAtFailure, Networking.ReceiveStreamOfPayloads) |
| Networking.Consumed | src/fbl2024/networking.py:69-85 | how many datagrams the receive loop takes, never more than the stream holds (Networking.ConsumedMeaning) |
| Networking.AskStatus | src/fbl2024/networking.py:89-103 | one iteration of the poller: idle while down, the timeout check, then the two gated queries (Networking.AskStatusTimeout, Networking.AskStatusQueries) |
| Networking.AwaitAck | src/fbl2024/networking.py:42-53 | the five-second wait for "Status:ok" over the observed polls; success marks the link live, stamps it and shows the acknowledgement the receiver wrote (Networking.AwaitAckSucceedsIff, Networking.AwaitAckOutcome) |
| Networking.Handshake | src/fbl2024/networking.py:34-53 | `connect`: the ungated "command", then the wait (Networking.ConnectSendsCommandUngated, Networking.ConnectFailsWithoutAck) |
| Networking.GateBlocksWhileDisconnected | src/fbl2024/networking.py:57-59 | a gated send while disconnected transmits nothing and changes no field |
| Networking.SendOutcome | src/fbl2024/networking.py:61-65 | a send past the gate either appends the command and changes nothing else, or fails and only demotes the link |
| Networking.ReceiveAssertsLiveness | src/fbl2024/networking.py:71-81 | every datagram, whatever its content, marks the link live, records the clock reading and classifies the stripped text |
| Networking.ReceiveStreamStopsAtFailure | src/fbl2024/networking.py:82-85 | the receive loop ends at its first error: later datagrams have no effect and the link is down |
| Networking.ReceiveStreamOfPayloads | src/fbl2024/networking.py:69-81 | an error-free stream leaves the link live, stamped with the last datagram's clock, and sends nothing |
| Networking.AskStatusIdleWhileDisconnected | src/fbl2024/networking.py:90-92 | while disconnected the poller sends nothing and changes nothing |
| Networking.AskStatusTimeout | src/fbl2024/networking.py:95-102 | more than five silent seconds demote the link and set "Status: Disconnected", and the gate then suppresses both queries |
| Networking.AskStatusAtBoundary | src/fbl2024/networking.py:95 | exactly five seconds of silence is not a timeout |
| Networking.AskStatusQueries | src/fbl2024/networking.py:100-102 | a live link gets "battery?" then "time?"; a failed first query demotes the link and suppresses the second |
| Networking.AwaitAckSucceedsIff | src/fbl2024/networking.py:42-53 | the handshake succeeds exactly when some poll inside the five-second window, with all earlier polls inside it, sees "Status:ok" |
| Networking.AwaitAckOutcome | src/fbl2024/networking.py:43-53 | on success the link is live, stamped inside the window and showing "Status:ok"; on failure nothing changes; the other texts and the log are untouched |
| Networking.ConnectSendsCommandUngated | src/fbl2024/networking.py:39 | `connect` sends "command" even while disconnected |
| Networking.ConnectFailsWithoutAck | src/fbl2024/networking.py:52-53 | without an acknowledgement in the window `connect` fails and leaves what the "command" send left |
| Networking.SilentWhileDisconnected | src/fbl2024/networking.py:55-103 | once the link is down, no command reaches the socket and the link stays down until a datagram arrives or `connect` runs |
| Networking.PromotionPaths | src/fbl2024/networking.py:34-85 | only a received datagram or a successful `connect` turns a down link live |
| Networking.TelloNetworking.constructor | src/fbl2024/networking.py:26-32 | the object's fields start as the initial state |
| Networking.TelloNetworking.SendCommand | src/fbl2024/networking.py:55-65 | the fields move exactly as the gated send says |
| Networking.TelloNetworking.ReceiveOne | src/fbl2024/networking.py:70-85 | one receive pass moves the fields as the receive step says, and reports whether the loop goes on |
| Networking.ConsumedMeaning | src/fbl2024/networking.py:69-85 | the receive loop reads every datagram before the first error and stops right after that error |
| Networking.TelloNetworking.UdpReceiver | src/fbl2024/networking.py:67-85 | the receive loop over a datagram stream ends in the stream's state, having taken exactly the datagrams up to and including the first error |
| Networking.TelloNetworking.AskStatusOnce | src/fbl2024/networking.py:89-103 | one poller iteration moves the fields as the poller step says |
| Networking.TelloNetworking.Connect | src/fbl2024/networking.py:34-53 | the fields and result are those of the handshake |
| Movement.CommandText | src/fbl2024/movement.py:5-47 | the literal text each helper hands to `send_command` (Movement.CommandTextMeansIntended, Movement.CommandTextInjective) |
| Movement.CommandTextMeansIntended | src/fbl2024/movement.py:5-47 | each helper sends the named command: up/down 20 cm, the four moves 40 cm, turns 90 degrees, `speed n`, and the text reads back as it |
| Movement.CommandTextInjective | src/fbl2024/movement.py:5-47 | no two helpers send the same text |
| Movement.DefaultSpeedText | src/fbl2024/movement.py:45-47 | `set_speed()` with its default sends "speed 40" |
| Movement.HelpersAreGated | src/fbl2024/movement.py:5-47 | while disconnected no helper transmits or changes anything |
| Movement.TelloMovement.Perform | src/fbl2024/movement.py:5-47 | each helper is exactly one gated send of its text |
| RcMovement.CommandText | movement.py:22-48 | the literal text each discrete helper hands to `send_command` (RcMovement.CommandTextMeansIntended) |
| RcMovement.SendRc | movement.py:5-19 | `send_rc_control`: the RC text straight to the socket, failures only reported (RcMovement.RcBypassesGate, RcMovement.RcFailureIsSwallowed) |
| RcMovement.CommandTextMeansIntended | movement.py:22-48 | takeoff, land, stop and the four flips send their commands, which read back as them |
| RcMovement.RcBypassesGate | movement.py:14-17 | the RC text is transmitted even while disconnected, and only the log changes |
| RcMovement.RcFailureIsSwallowed | movement.py:16-19 | a failing RC send changes nothing and does not demote the link |
| RcMovement.TelloMovement.SendRcControl | movement.py:5-19 | the fields move exactly as the ungated RC send says |
| RcMovement.TelloMovement.Perform | movement.py:22-48 | each discrete helper is exactly one gated send of its text |
| TraceNetworking.Initial | src/fbl2024/linetrace/networking.py:15-18 | the tracer's texts start as "Battery:", "Time:", "Status:" with an open socket |
| TraceNetworking.Send | src/fbl2024/linetrace/networking.py:62-66 | `send_command`: appended when the socket accepts it, only reported otherwise (TraceNetworking.TelloNetworking.SendCommand) |
| TraceNetworking.Receive | src/fbl2024/linetrace/networking.py:37-47 | one receive pass: the slice classifier on the stripped text, an error skipped (TraceNetworking.ReceiveUpdatesOneField, TraceNetworking.ErrorsAreSkipped) |
| TraceNetworking.AskRounds | src/fbl2024/linetrace/networking.py:49-60 | rounds of `ask`, each a "battery?" and a "time?" whose failures are swallowed (TraceNetworking.AskRoundsAllDelivered, TraceNetworking.AskRoundsOnlyQueries) |
| TraceNetworking.StartUp | src/fbl2024/linetrace/networking.py:20-32 | the constructor: the already-running threads' steps around its three sends (TraceNetworking.StartUpOrder) |
| TraceNetworking.Act | src/fbl2024/linetrace/networking.py:35-60 | one atomic step of a thread: a datagram for the receiver, or a round of `ask` (TraceNetworking.ActOnlyQueries) |
| TraceNetworking.Background | src/fbl2024/linetrace/networking.py:20-60 | the threads' steps in their interleaved order (TraceNetworking.BackgroundOnlyQueries) |
| TraceNetworking.Close | src/fbl2024/linetrace/networking.py:68-70 | "streamoff", then the socket closed (TraceNetworking.CloseSendsStreamOffLast) |
| TraceNetworking.ReceiveUpdatesOneField | src/fbl2024/linetrace/networking.py:38-45 | a datagram rewrites exactly the text its classification picks; the log and socket are untouched |
| TraceNetworking.ErrorsAreSkipped | src/fbl2024/linetrace/networking.py:46-47 | a receive error changes nothing and the loop carries on with the next datagram |
| TraceNetworking.ReceiveAllKeepsLog | src/fbl2024/linetrace/networking.py:35-47 | the receiver never sends |
| TraceNetworking.AlternationAt | src/fbl2024/linetrace/networking.py:49-60 | query 2k is "battery?" and query 2k+1 is "time?": `ask` strictly alternates |
| TraceNetworking.AskRoundsAllDelivered | src/fbl2024/linetrace/networking.py:49-60 | when every send succeeds, n rounds add exactly the alternation of 2n queries |
| TraceNetworking.AskRoundsOnlyQueries | src/fbl2024/linetrace/networking.py:49-60 | failed sends do not stop `ask`; everything it adds is one of the two queries and the texts are untouched |
| TraceNetworking.ActOnlyQueries | src/fbl2024/linetrace/networking.py:35-60 | a thread step only appends queries to the log and leaves the socket open or closed as it was |
| TraceNetworking.BackgroundOnlyQueries | src/fbl2024/linetrace/networking.py:20-60 | any run of thread steps only appends queries and leaves the socket as it was |
| TraceNetworking.StartUpOrder | src/fbl2024/linetrace/networking.py:20-32 | whatever the threads do meanwhile, the log without the queries is "command", "streamon", "setfps low" in that order, each present exactly when its send succeeded; the socket stays open; with idle threads the texts are the initial ones |
| TraceNetworking.CloseSendsStreamOffLast | src/fbl2024/linetrace/networking.py:68-70 | `close` sends "streamoff" and then nothing more gets through |
| TraceNetworking.TelloNetworking.constructor | src/fbl2024/linetrace/networking.py:6-32 | the object ends in the start-up state, threads' steps included |
| TraceNetworking.TelloNetworking.SendCommand | src/fbl2024/linetrace/networking.py:62-66 | a send appends on success and is only reported on failure |
| TraceNetworking.TelloNetworking.ReceiveOne | src/fbl2024/linetrace/networking.py:37-47 | one receive pass applies the slice classifier or skips an error |
| TraceNetworking.TelloNetworking.Step | src/fbl2024/linetrace/networking.py:35-60 | one thread step moves the fields as Act says |
| TraceNetworking.TelloNetworking.Interleave | src/fbl2024/linetrace/networking.py:20-60 | the loop over thread steps ends in Background's state |
| TraceNetworking.TelloNetworking.UdpReceiver | src/fbl2024/linetrace/networking.py:35-47 | the receive loop ends in the stream's state |
| TraceNetworking.TelloNetworking.Ask | src/fbl2024/linetrace/networking.py:49-60 | the poller's rounds end in the rounds' state |
| TraceNetworking.TelloNetworking.CloseLink | src/fbl2024/linetrace/networking.py:68-70 | the fields after `close` |
| TraceMovement.SendRc | src/fbl2024/linetrace/movement.py:39-40 | the RC text through `send_command` (TraceMovement.SendRcDelivers) |
| TraceMovement.SendRcDelivers | src/fbl2024/linetrace/movement.py:39-40 | the RC text carries the four values unclamped, reads back as them, and is delivered whenever the socket accepts it |
| TraceMovement.TelloMovement.Takeoff | src/fbl2024/linetrace/movement.py:6-7 | one send of "takeoff" |
| TraceMovement.TelloMovement.Land | src/fbl2024/linetrace/movement.py:9-10 | one send of "land" |
| TraceMovement.TelloMovement.SendRcControl | src/fbl2024/linetrace/movement.py:39-40 | one send of the RC text |
| LineTrace.Truncate | src/fbl2024/linetrace/linetrace.py:57 | `int()` truncates toward zero |
| LineTrace.ArgMax | src/fbl2024/linetrace/linetrace.py:51 | the index holds the maximum and every earlier index holds less: the first maximum |
| LineTrace.Target | src/fbl2024/linetrace/linetrace.py:51-57 | the chosen component has the largest area, the first such on ties |
| LineTrace.BackgroundNeverChosen | src/fbl2024/linetrace/linetrace.py:45-51 | label 0 is never the target, even when it is the largest; the target is the first largest of the others |
| LineTrace.Yaw | src/fbl2024/linetrace/linetrace.py:63-68 | the steering rule as the source writes it: dead band, negation, clamp (LineTrace.YawMeaning, LineTrace.YawMonotone, LineTrace.YawOdd) |
| LineTrace.YawMeaning | src/fbl2024/linetrace/linetrace.py:63-68 | the yaw lies in [-70, 70], is 0 exactly inside the 50-pixel dead band, and otherwise is `mx - 240` clamped to the bound |
| LineTrace.YawMonotone | src/fbl2024/linetrace/linetrace.py:64-68 | a target further right never yields a smaller yaw |
| LineTrace.YawOdd | src/fbl2024/linetrace/linetrace.py:64-68 | mirror-image targets give opposite yaws |
| LineTrace.FrameRc | src/fbl2024/linetrace/linetrace.py:50-69 | a frame yields an RC command exactly when the tracer is armed and a foreground component exists |
| LineTrace.FrameRcSteersToLargest | src/fbl2024/linetrace/linetrace.py:50-69 | an armed frame sends (0, b, 0, yaw) with yaw towards a largest component and within ±70 |
| LineTrace.DisarmedSendsNothing | src/fbl2024/linetrace/linetrace.py:50-63 | a disarmed tracer, or one that sees only the background, sends nothing |
| LineTrace.LineTracer.constructor | src/fbl2024/linetrace/linetrace.py:6-15 | the tracer starts with full-range bounds, flag 0 and speed 0 |
| LineTrace.LineTracer.ProcessFrame | src/fbl2024/linetrace/linetrace.py:28-71 | the bounds are the trackbar readings, flag and speed are untouched, and the link moves as the frame's RC rule says |
| TraceLoop.Dispatch | src/fbl2024/linetrace/main.py:34-64 | the `elif` chain from key code to action (TraceLoop.DispatchMissingKeys) |
| TraceLoop.KeyStep | src/fbl2024/linetrace/main.py:44-64 | what each key that stays in the loop does (TraceLoop.ArmAndDisarm, TraceLoop.IterateKeepsSpeed) |
| TraceLoop.KeepAlive | src/fbl2024/linetrace/main.py:66-69 | the keep-alive: "command" and a new `pre_time` after more than five seconds (TraceLoop.KeepAliveFresh) |
| TraceLoop.Iterate | src/fbl2024/linetrace/main.py:25-69 | one step: a thread step, or one pass of the loop body and how it ends (TraceLoop.IterateKeepsSpeed, TraceLoop.KeepAliveFresh, TraceLoop.EmptyFramesAreSkipped, TraceLoop.ThreadStepOnlyQueries) |
| TraceLoop.DispatchMissingKeys | src/fbl2024/linetrace/main.py:34-64 | exactly w, s, a, d, r, c, q, e reach a missing helper; t, l, 1, 2, y, h have their actions; no key does nothing |
| TraceLoop.IterateKeepsSpeed | src/fbl2024/linetrace/main.py:61-64 | one pass keeps `b` a multiple of 10 in [0, 100] |
| TraceLoop.RunKeepsSpeed | src/fbl2024/linetrace/main.py:61-64 | any run of passes keeps `b` a multiple of 10 in [0, 100] |
| TraceLoop.KeepAliveFresh | src/fbl2024/linetrace/main.py:66-69 | after more than five seconds the pass sends "command" after its key's effect (when the socket accepts it) and `pre_time` becomes `now`; otherwise the pass sends no keep-alive and keeps `pre_time`; either way the last keep-alive is at most five seconds old |
| TraceLoop.EmptyFramesAreSkipped | src/fbl2024/linetrace/main.py:26-27 | an empty frame skips the whole body, keep-alive included |
| TraceLoop.EveryExitCloses | src/fbl2024/linetrace/main.py:71-74 | whatever ends the loop, the link is closed after a final "streamoff" |
| TraceLoop.ThreadStepOnlyQueries | src/fbl2024/linetrace/networking.py:35-60 | a step of the receiver or of `ask` during the loop leaves the tracer's fields and `pre_time` alone and only appends queries to the log |
| TraceLoop.ArmAndDisarm | src/fbl2024/linetrace/main.py:56-60 | '1' only sets the flag; '2' clears it and sends "rc 0 0 0 0" |
| TraceLoop.TraceMain | src/fbl2024/linetrace/main.py:21-76 | the tracer's fields, the link and the outcome are those of the session over the given frames and thread steps |
| TraceLoop.Pass | src/fbl2024/linetrace/main.py:25-69 | one step, a thread's or a pass of the loop body, moves the objects as Iterate says |
| TraceLoop.FramePass | src/fbl2024/linetrace/main.py:28-69 | a pass over a captured frame moves the objects as its iteration says |
| TraceLoop.Press | src/fbl2024/linetrace/main.py:44-64 | a key that stays in the loop moves the objects as its branch says |
| Teleop.InitialKeys | main.py:8-12 | the table holds exactly the eight tracked keys, all up |
| Teleop.Pressed | main.py:147-153 | a press marks a tracked character key held, and changes no other entry or key set |
| Teleop.Released | main.py:155-161 | a release marks a tracked character key up, and changes no other entry or key set |
| Teleop.AllReleased | main.py:77 | the emergency reset keeps the key set and marks every key up |
| Teleop.RcFromKeys | main.py:98-117 | the four RC values from the held keys (Teleop.RcFromKeysMeaning, Teleop.ReleasedKeysHover, Teleop.AxesIndependent) |
| Teleop.RcFromKeysMeaning | main.py:98-117 | each RC component is -50, 0 or 50; an axis moves exactly when one of its keys is held; w, a, r, q win over their opposites |
| Teleop.ReleasedKeysHover | main.py:77-117 | with every key up, all four RC components are zero |
| Teleop.AxesIndependent | main.py:98-117 | pressing or releasing w or s changes only the forward-back component |
| Teleop.Overlay | main.py:126-133 | the text drawn over a frame: the command and the three texts while connected, the warning alone otherwise (Teleop.LostFrameShowsWarning, Teleop.ConnectedPassShowsCommand) |
| Teleop.KeyCode | main.py:62 | `& 0xFF` keeps the low byte: the result is in [0, 256), differs from the raw code by a multiple of 256, and is the code itself when that is already a byte |
| Teleop.Discrete | main.py:65-77 | the discrete branch of a pass: takeoff, land or emergency stop and its label (Teleop.NoKeyIsNoCommand, Teleop.EmergencyStopZeroes) |
| Teleop.Drive | main.py:65-120 | a pass that does not read ESC: the discrete branch, then one RC command (Teleop.PassEndsWithRc) |
| Teleop.Iterate | main.py:49-165 | one step of the trace: a listener callback, a receiver or poller round, or a camera pass (Teleop.IterateKeepsKeys, Teleop.LostFrameDemotes) |
| Teleop.NoKeyIsNoCommand | main.py:62-77 | no key (-1) reads as 255 and picks no discrete branch |
| Teleop.LostFrameDemotes | main.py:50-54 | a pass with a lost frame ends with the link down |
| Teleop.LostFrameShowsWarning | main.py:50-133 | the frame of a lost-frame pass shows only "DRONE NOT CONNECTED!", provided the placeholder frame is usable |
| Teleop.ConnectedPassShowsCommand | main.py:65-133 | on a live link whose sends succeed, the frame shows "Cmd: " and the label of the key read in that pass (or the previous one), then the three texts unchanged |
| Teleop.PassEndsWithRc | main.py:65-120 | every non-ESC pass adds at most its one discrete command and then exactly one RC command, for the keys held after the discrete command, which reads back as those values |
| Teleop.LostFrameBlocksTakeoff | main.py:50-68 | a takeoff read in a lost-frame pass is not sent, while the RC command is, provided the placeholder frame is usable |
| Teleop.EmergencyStopZeroes | main.py:73-120 | space sends "stop", releases every key and sends "rc 0 0 0 0" in the same pass |
| Teleop.ListenerStopsOnEsc | main.py:163-165 | releasing ESC stops the listener, and later key events change nothing |
| Teleop.ReceiverStopsOnFailure | src/fbl2024/networking.py:82-85 | after a receive error the link is down and later datagrams change nothing |
| Teleop.ShutdownNeedsLink | main.py:137-140 | the clean-up sends "land", "streamoff" over a live link and nothing over a down one, as after ESC in a lost-frame pass whose placeholder frame is usable |
| Teleop.StartUpOutcome | main.py:24-31 | start-up continues exactly when the handshake succeeds, and then the link is live, shows "Status:ok" and has "streamon" sent last |
| Teleop.IterateKeepsKeys | main.py:147-161 | no step changes the set of tracked keys |
| Teleop.RunKeepsKeys | main.py:49-120 | no run of steps changes the set of tracked keys |
| Teleop.KeyStates.constructor | main.py:8-12 | the table starts with every tracked key up |
| Teleop.KeyStates.OnPress | main.py:147-153 | the table moves as a press says |
| Teleop.KeyStates.OnRelease | main.py:155-165 | the table moves as a release says, and the listener continues unless the key is ESC |
| Teleop.KeyStates.ReleaseAll | main.py:77 | the reset loop marks every key up |
| Teleop.TeleopMain | main.py:14-145 | the link, the key table and the outcome are those of the session |
| Teleop.Loop | main.py:49-120 | the link and key table after the camera loop, and whether ESC ended it, are those of the trace |
| Teleop.Tock | main.py:49-120 | one trace step moves the objects as the step says |
| Teleop.FramePass | main.py:50-120 | one camera pass moves the objects as the pass says |
| Teleop.DiscreteKey | main.py:65-77 | the discrete branch moves the objects as it says |
| DroneTest.Initial | src/fbl2024/drone_test.py:127-130 | the globals start as "Battery:", "Time:", "Status:", command text "None", empty log |
| DroneTest.Overlay | src/fbl2024/drone_test.py:189-224 | the text drawn over each shown frame: "Cmd:" and the label, then the three texts (DroneTest.NextFrameShowsLabel, DroneTest.UnboundKeyKeepsOverlay) |
| DroneTest.KeyBinding | src/fbl2024/drone_test.py:234-277 | the `elif` chain from key code to helper and label (DroneTest.KeyBindingMeaning, DroneTest.KeyBindingInjective) |
| DroneTest.Iterate | src/fbl2024/drone_test.py:176-277 | one step of the script: a thread step or a frame (DroneTest.FrameSendsAtMostOne, DroneTest.NextFrameShowsLabel) |
| DroneTest.StartUp | src/fbl2024/drone_test.py:146-173 | the threads started first, then the uncaught "command" and "streamon" sends, with the threads' steps before, between and after them (DroneTest.StartUpSendsInOrder) |
| DroneTest.Act | src/fbl2024/drone_test.py:8-41 | one atomic step of the receiver or of `ask` (DroneTest.BackgroundOnlyQueries) |
| DroneTest.Background | src/fbl2024/drone_test.py:8-41 | the threads' steps in their interleaved order (DroneTest.BackgroundOnlyQueries) |
| DroneTest.Finish | src/fbl2024/drone_test.py:282-283 | the final "streamoff" (DroneTest.ScriptBeginsWithHandshake, DroneTest.Script.MainLoop) |
| DroneTest.KeyBindingMeaning | src/fbl2024/drone_test.py:229-277 | exactly eleven keys are bound, ESC is not, and each sends its helper's well-formed command |
| DroneTest.KeyBindingInjective | src/fbl2024/drone_test.py:234-277 | different keys send different commands |
| DroneTest.SpeedKeySendsDefault | src/fbl2024/drone_test.py:106-108 | 'm' sends "speed 40" |
| DroneTest.FrameSendsAtMostOne | src/fbl2024/drone_test.py:176-277 | a shown frame sends at most one datagram, exactly one for a bound key that gets through; an empty frame does nothing |
| DroneTest.NextFrameShowsLabel | src/fbl2024/drone_test.py:189-277 | after a bound key, the next shown frame reads "Cmd:" and that key's label, whether or not its send got through, over the unchanged texts |
| DroneTest.UnboundKeyKeepsOverlay | src/fbl2024/drone_test.py:176-277 | an empty frame or an unbound key leaves the overlay as it was |
| DroneTest.StartUpSendsInOrder | src/fbl2024/drone_test.py:146-173 | start-up gets through exactly when both sends do; then, whatever the threads did, the log without the queries is "command", "streamon" and the label is "None"; with idle threads the texts are the initial ones |
| DroneTest.ScriptBeginsWithHandshake | src/fbl2024/drone_test.py:146-283 | whatever the threads, the loop and its end do, the log without the queries still begins with "command", "streamon" |
| DroneTest.BackgroundOnlyQueries | src/fbl2024/drone_test.py:8-41 | the threads only append queries to the log and leave the label alone |
| DroneTest.ReceiverMatchesTracer | src/fbl2024/drone_test.py:13-26 | the script's receiver updates the texts as the line tracer's does, and sends nothing |
| DroneTest.ReceiveUpdatesOneField | src/fbl2024/drone_test.py:18-26 | a reply rewrites exactly one global text; an error changes nothing |
| DroneTest.AskRoundIndependent | src/fbl2024/drone_test.py:29-41 | a failed "battery?" does not stop "time?" |
| DroneTest.RunOnlyAppends | src/fbl2024/drone_test.py:176-277 | the main loop never removes a datagram from the log |
| DroneTest.Script.constructor | src/fbl2024/drone_test.py:127-130 | the globals start as the initial state |
| DroneTest.Script.SendSwallowing | src/fbl2024/drone_test.py:47-50 | a send appends on success and changes nothing on failure |
| DroneTest.Script.ReceiveOne | src/fbl2024/drone_test.py:14-26 | one receive pass moves the globals as the receive step says |
| DroneTest.Script.Ask | src/fbl2024/drone_test.py:29-41 | one round of `ask` |
| DroneTest.Script.Step | src/fbl2024/drone_test.py:8-41 | one thread step moves the globals as Act says |
| DroneTest.Script.MainLoop | src/fbl2024/drone_test.py:176-283 | the globals after the loop, and "streamoff" when ESC ended it |

## Left out

- Sockets: addresses, ports, `bind`, UTF-8 encoding and decoding. Each send is an `ok` flag; each receive is the decoded text or a `Failure`, with decoding errors counted as failures.
- Threads: the receiver, poller and listener run in parallel in the source. Here they are atomic steps interleaved with the main loop, so the data races between them are not modelled. One poller round ("battery?", then "time?") is a single step, although the source sleeps 0.5 s between the two queries; a main-loop send that falls between them in the source never does in the model.
- Clocks and `time.sleep`: clock readings are parameters, and the sleeps only pace the loops.
- OpenCV: capture, resize, crop, HSV conversion, thresholding, dilation, connected-component labelling, drawing, windows, trackbars (`create_trackbars`, `on_trackbar`) and `waitKey`. A frame arrives as its labelled components (area and centroid x) and its key code. The trackbar bounds are stored but feed only OpenCV.
- Floating point: the centroid is a `real` and `int()` is truncation. The yaw arithmetic uses integers, which is exact because the source's floats hold integers there.
- Unicode: `isdecimal` is modelled for ASCII digits only. Python also accepts other Unicode decimal digits.
- `print` messages, the `exit()` on a failed `bind`, and `sys.exit()` beyond ending the model's run.
- src/fbl2024/main.py is not part of this model.
- The top-level networking.py that main.py imports is not part of this model. main.py is modelled over the client of src/fbl2024/networking.py, whose interface it uses.
- Networking.TelloNetworking.Connect: `connect` reads `status_text` while the receiver thread writes it. Its wait loop is therefore modelled over the observed (clock, status) polls, not over the object's own field. The `time.time()` stored on success is that poll's reading, and the status text then reads "Status:ok" as the poll saw it. The receiver's other writes during the wait (the battery and time texts, `is_connected`, `last_response_time`) are not modelled.
- Teleop.FramePass: the black placeholder frame built at main.py:53-56 is assumed to work. OpenCV's Python `UMat` has no `setTo` and no `.shape`, so in the source a lost frame would most likely raise AttributeError at main.py:54. `main` has no try/finally, so the program would then end at once: no RC send, no overlay, no `land` and no `streamoff`. Teleop.LostFrameShowsWarning, Teleop.LostFrameBlocksTakeoff and the lost-frame clause of Teleop.ShutdownNeedsLink describe the pass as it would run if that frame were usable. Only Teleop.LostFrameDemotes (main.py:52, before the crash point) holds either way. This rests on the library's interface, which is not part of this model, not on the repository's text.
- Teleop.StartUp: the poller started at main.py:27-29 may send its first queries, and the receiver may handle datagrams, before "streamon" goes out; the model sends "streamon" straight after `connect`.
- TraceLoop.TraceMain: a KeyboardInterrupt is modelled only between passes, not in the middle of one.
- DroneTest.Script: the start-up sends, whose errors are not caught, are modelled only by the function `DroneTest.StartUp`, and the script's object starts with the loop. The misspelt `ask_thread.deamon` leaves the poller thread non-daemon, so the process outlives the loop; process lifetime is not modelled.
- `flipLeft` and the other flips of movement.py are modelled as helpers, but main.py never calls them.
