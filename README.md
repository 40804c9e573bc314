# pupil-paint, modelled in Dafny

pupil-paint is a multi-user painting game. Each player wears a gaze-tracking
headset. Where a player looks on a large screen, a brush stamp in the player's
colour is painted onto a shared canvas. A background process keeps a
scoreboard: how many canvas pixels each colour holds.

This project models the sequential logic of three parts of the system and
proves properties of that model:

- **The orchestrator** (`PupilPainter` in `pupil_paint/app.py`), in
  `painter.dfy`.
  - The class `Painter.PupilPainter` holds the orchestrator's state in
    fields: the client table keyed by host, the canvas, its shared-memory
    mirror (an `array`), the scoreboard and the five queues.
  - The three queue drains use a `while` loop, as the source does;
    `DrawScoreboard` uses a `for` loop over the scoreboard and `Cleanup`
    puts a Quit on every queue it reaches.
  - Each method is proved equal to its own specification function over a
    `State` value: `CheckForNewClients` to `DrainClientInfo`,
    `HandleClientInfo` to `ClientInfoStep`, `CheckForNewGazes` to
    `DrainGazes`, `HandleGaze` to `GazeStep`, `CheckForNewScores` to
    `ScoreTick`, `Tick` to `FrameStep`, `Cleanup` to `ShutdownFanOut` and
    `DrawScoreboard` to `Shown`. The lemmas about the orchestrator are
    stated over these functions.
  - An exception that ends the orchestrator is an outcome of its own,
    `Crashed`. The source raises two kinds: a `KeyError` when a message
    names an unregistered host, and an `AttributeError` on a non-score
    result.
  - The client table keeps an invariant, `Inv`. Every entry points at a
    started session of its own host. Every started session that is no
    longer current has been sent a Quit.
- **The score engine** (`keep_score` in `pupil_paint/bgscore.py`), in
  `scoring.dfy`.
  - `np.unique(canvas, axis=0, return_counts=True)` zipped into a dict
    becomes `Histogram`. `Histogram` is an association list built by
    sorted insertion.
  - `Histogram` is proved exact. Its colours are the colours of the buffer,
    in ascending lexicographic order. Each count is the number of pixels of
    that colour. The counts add up to the buffer size.
  - The command loop is the method `KeepScore`. It is proved against the
    function `Engine` over the commands that reach the engine.
- **A client session** (`get_surface_gazes` in `pupil_paint/client.py`), in
  `session.dfy`.
  - The device and the gaze mapper are given as a trace of loop passes. Each
    pass records the commands drained and the result of the timed receive.
  - The session loop is proved equal to the function `Run`.
  - Lemmas state the protocol:
    - "started" is sent first and exactly once;
    - only GazePoints follow it;
    - nothing is received or sent after a Quit;
    - a timeout sends nothing;
    - the vertical axis is flipped.

Shared declarations live in `messages.dfy`: the message datatype, RGB
triples and the palette. `layout.dfy` computes the canvas rectangle and the
marker quadrilaterals.

The message set follows what the code constructs and tests for. It includes
`ClientStatus`, `Draw`, `Swatches`, `CalculateScore` and `UpdatedScores`,
which the message module does not declare.

The model follows what the code does in three places worth noting:

- A GazePoint or Draw for an unregistered host is not dropped: the table
  lookup (`pupil_paint/app.py:228`, `pupil_paint/app.py:238`) raises
  `KeyError` and ends the orchestrator (`UnknownHost`).
- Clients are keyed by host alone (`pupil_paint/app.py:238`), so a
  straggling gaze from a replaced session is recorded for the new client.
- A `ClientIdentify` on the registration queue has no branch and is dropped
  without effect (`Painter.RegistrationIgnoresOtherMessages`).

## Model

| member | source | states |
|---|---|---|
| Layout.CanvasRect | pupil_paint/app.py:89-95 | the canvas starts 5 px right of the one-tag scoreboard column, is vertically centred with half a tag above and below, and ends 95 px before the right edge |
| Layout.MarkerCorners | pupil_paint/app.py:100-106 | there are five tag corners, one per marker id |
| Layout.MarkerQuad | pupil_paint/app.py:108-122 | a marker quadrilateral is an axis-aligned square of side 0.8 tag in the order tl, tr, br, bl, centred on its tag and strictly inside it |
| Layout.MarkerVerts | pupil_paint/app.py:97-124 | one quadrilateral per marker id 0..4, each centred inside the tag drawn at the matching corner |
| Scoring.AddPixelColors | pupil_paint/bgscore.py:20-22 | counting one more pixel adds exactly its colour to the histogram's keys |
| Scoring.AddPixelAscending | pupil_paint/bgscore.py:20-21 | counting one more pixel keeps the colours strictly ascending |
| Scoring.AddPixelCounts | pupil_paint/bgscore.py:20-22 | counting one more pixel keeps every count at least 1 and raises the total by one |
| Scoring.AddPixelLookup | pupil_paint/bgscore.py:20-22 | counting one more pixel of colour c raises c's count by one and leaves every other count alone |
| Scoring.Histogram | pupil_paint/bgscore.py:20-22 | no contract of its own; HistogramIsExact states its keys, their ascending order, each count and the total |
| Scoring.HistogramIsExact | pupil_paint/bgscore.py:20-22 | the keys are exactly the distinct triples of the buffer, strictly ascending; each value is that triple's number of occurrences and at least 1; the values sum to the number of triples |
| Scoring.HistogramEntryCounts | pupil_paint/bgscore.py:20-22 | every entry's count is the number of pixels of its colour |
| Scoring.Engine | pupil_paint/bgscore.py:13-25 | the command loop never takes more commands than are queued; EngineAnswersEachRequest and EngineStopsAtQuit state what it answers and where it stops |
| Scoring.EngineAnswersEachRequest | pupil_paint/bgscore.py:13-25 | without a Quit every command is consumed and the loop keeps going; there is exactly one UpdatedScores per CalculateScore and none for other commands; every result is the histogram of the same buffer |
| Scoring.EngineUsesOnlyTaken | pupil_paint/bgscore.py:13-25 | the engine's outputs, count and quit flag depend only on the commands it takes, not on any queued after a Quit |
| Scoring.EngineStopsAtQuit | pupil_paint/bgscore.py:14-17 | a Quit ends the loop: the commands after it are neither taken nor answered |
| Scoring.KeepScore | pupil_paint/bgscore.py:9-28 | the polling loop over the first width*height triples of the shared buffer does exactly what Engine says: its outputs, the commands it takes and whether it quit |
| Session.ChooseCalibration | pupil_paint/client.py:13-23 | a module serial takes the device's calibration; otherwise a glasses serial takes the packaged file, with camera_matrix and dist_coefs as the matrix and coefficients; with neither serial there is no calibration, and only then |
| Session.SurfaceToScreen | pupil_paint/client.py:50-54 | no contract of its own; SurfaceToScreenFlips states the vertical flip and the inverse mapping |
| Session.SurfaceToScreenFlips | pupil_paint/client.py:50-54 | surface y = 0 lands on screen y = height and y = 1 on 0; the conversion is undone by the inverse mapping |
| Session.FrameMessages | pupil_paint/client.py:44-54 | a timed-out receive yields no message; otherwise there is one message per mapped gaze, all of them GazePoints of the session's host |
| Session.FrameMessagesConvert | pupil_paint/client.py:49-54 | the k-th message is GazePoint(host, x*w, (1-y)*h) of the k-th mapped gaze, so the mapper's order is kept |
| Session.FirstQuit | pupil_paint/client.py:33-42 | the first pass whose drained commands hold a Quit: no earlier pass holds one |
| Session.EmittedAppend | pupil_paint/client.py:32-54 | the messages of consecutive passes are sent in pass order |
| Session.EmittedAreGazePoints | pupil_paint/client.py:48-54 | every message the loop sends is a GazePoint of the session's host |
| Session.Run | pupil_paint/client.py:10-54 | no contract of its own; SessionProtocol and QuitIgnoresTheRest state the started, stream and Quit protocol of the session |
| Session.SessionProtocol | pupil_paint/client.py:10-54 | without a calibration nothing is sent; otherwise "started" comes first and exactly once and only GazePoints of the host follow; the session ends on a Quit exactly when one is drained; one receive per pass before the first Quit and none after it |
| Session.QuitIgnoresTheRest | pupil_paint/client.py:34-42 | whatever follows the pass that drains a Quit changes neither what is sent nor how many receives are made |
| Session.DrainCommands | pupil_paint/client.py:34-39 | the drain reports a Quit exactly when one is among the commands; other commands are ignored |
| Session.MapFrame | pupil_paint/client.py:49-54 | the forwarding loop over one mapped frame sends exactly FrameMessages of it |
| Session.Pass | pupil_paint/client.py:34-54 | one pass stops on a Quit exactly when the drained commands hold one, sending nothing then, and otherwise sends the messages of its receive |
| Session.ForwardGazes | pupil_paint/client.py:32-54 | the loop makes exactly FirstQuit receives, sends the messages of those passes, and ends on a Quit exactly when one was drained |
| Session.GetSurfaceGazes | pupil_paint/client.py:10-56 | the whole session sends, receives and ends as Run says |
| Painter.NewClient | pupil_paint/app.py:40-50 | no contract of its own; RegisterReplaces states the fresh entry: the given colour, not enabled, no gaze and no gaze time |
| Painter.Register | pupil_paint/app.py:215-224 | no contract of its own; RegisterReplaces and RegisterKeepsInv state the replacement, the single Quit and the invariant |
| Painter.RegisterKeepsInv | pupil_paint/app.py:215-224 | a registration keeps the table invariant: the only session that stops being current is sent a Quit |
| Painter.ClientInfoStep | pupil_paint/app.py:212-230 | one registration-queue message keeps the invariant and changes only the client table and the started sessions |
| Painter.DrainClientInfo | pupil_paint/app.py:210-230 | the registration drain keeps the invariant and changes only the client table, the sessions and its own queue |
| Painter.DrainClientInfoEmpties | pupil_paint/app.py:210-212 | a registration drain that ends without a lookup failure has emptied its queue |
| Painter.RegistrationIgnoresOtherMessages | pupil_paint/app.py:212-230 | a registration-queue message that is neither a "new" status nor a Draw (a ClientIdentify, a "started" status, a Quit) leaves the whole state unchanged |
| Painter.RegisterReplaces | pupil_paint/app.py:215-224 | after ClientStatus(h, "new") the table holds one fresh client for h: not enabled, no gaze, the old client's colour (None if h is new), a new session with no commands. The old session gets exactly one Quit. No other client or session changes, and every other session of h has been told to quit |
| Painter.DrawUpdatesOnlyItsHost | pupil_paint/app.py:227-230 | Draw sets only the named client's colour and enabled flag; other clients, sessions and the canvas stay; an unregistered host is a lookup failure that changes nothing |
| Painter.TwoRegistrations | pupil_paint/app.py:210-224 | two "new" registrations of one host in a drain start two sessions; the first gets one Quit and the second is the one the table holds |
| Painter.GazeStep | pupil_paint/app.py:234-262 | one gaze-queue message keeps the registered hosts, keeps the canvas size, and changes only the client table, the canvas and the server's queue |
| Painter.DrainGazes | pupil_paint/app.py:232-262 | the gaze drain keeps the registered hosts and changes only the client table, the canvas, the server's queue and its own queue |
| Painter.GazeStepKeepsInv | pupil_paint/app.py:236-240 | recording a gaze keeps the table invariant |
| Painter.DrainGazesKeepsInv | pupil_paint/app.py:232-262 | a whole gaze drain keeps the table invariant |
| Painter.GazeRecordsThenGates | pupil_paint/app.py:236-258 | a GazePoint of a registered host always records position and time. The canvas changes only when the client is enabled, has a colour and x lies in the canvas columns (y unchecked); it is then one stamp at the canvas-local point in the client's colour. Nothing else changes. An unregistered host is a lookup failure |
| Painter.OutsideGazeNeverPaints | pupil_paint/app.py:242-258 | a drain with no gaze inside the canvas columns leaves the canvas as it was, whatever the clients' flags |
| Painter.GazeStepForwards | pupil_paint/app.py:260-262 | a gaze-queue message is forwarded to the server exactly when it is a "started" status |
| Painter.GazeQueueIgnoresNonGaze | pupil_paint/app.py:236-262 | a gaze-queue message that is not a GazePoint changes nothing except the server's queue, which gains the message exactly when it is a "started" status |
| Painter.GazeDrainForwardsStarted | pupil_paint/app.py:232-262 | when every gaze names a registered host, the drain completes, empties the queue and forwards exactly the "started" messages, in order |
| Painter.DrainScores | pupil_paint/app.py:271-272 | the score drain changes only the scoreboard and its own queue |
| Painter.Trigger | pupil_paint/app.py:265-269 | no contract of its own; SingleOutstandingRequest states when the canvas is mirrored and a request queued |
| Painter.ScoreTick | pupil_paint/app.py:264-272 | no contract of its own; SingleOutstandingRequest, ScoreboardIsLastResult and ScoringRoundTrip state the trigger, the drain and the round trip through the engine |
| Painter.SingleOutstandingRequest | pupil_paint/app.py:264-269 | the canvas is mirrored and a CalculateScore queued exactly when the trigger queue is empty, so there is never more than one outstanding request; the clients, sessions and canvas stay |
| Painter.ScoreboardIsLastResult | pupil_paint/app.py:271-272 | the scoreboard becomes the scores of the last result drained, or stays if none arrived; the queue is emptied |
| Painter.EngineServes | pupil_paint/bgscore.py:13-25 | the engine takes a prefix of the trigger queue, leaves the rest queued, appends to the score queue exactly what Engine answers for the commands it took, and changes nothing else; ScoringRoundTrip uses it |
| Painter.ScoringRoundTrip | pupil_paint/app.py:264-272 | tick, engine, tick: the scoreboard becomes the exact histogram of the canvas as mirrored, and its counts add up to the canvas size |
| Painter.ShutdownFanOut | pupil_paint/app.py:277-281 | no contract of its own; CleanupQuitsEverything states that the server, the engine and every started session get a Quit |
| Painter.CleanupQuitsEverything | pupil_paint/app.py:277-281 | after the fan-out every session ever started has a Quit; the server and the score engine each get one; clients and canvas stay |
| Painter.Shown | pupil_paint/app.py:299-301 | no contract of its own; ShownMembers and ShownAppend state which entries are drawn and that their order is kept |
| Painter.ShownMembers | pupil_paint/app.py:299-301 | an entry is drawn exactly when it is on the scoreboard with a palette colour; black is never drawn |
| Painter.ShownSingle | pupil_paint/app.py:299-301 | a single entry is drawn once when its colour is in the palette and not at all otherwise, so with ShownAppend every palette-coloured entry gives exactly one row |
| Painter.ShownAppend | pupil_paint/app.py:299-308 | drawing keeps scoreboard order |
| Painter.PupilPainter.constructor | pupil_paint/app.py:134-156 | start-up: all-black canvas the size of the canvas rectangle; a mirror of the same size; empty table, scoreboard and queues; the palette sent to the server |
| Painter.PupilPainter.CheckForNewClients | pupil_paint/app.py:210-230 | the loop keeps the invariant and ends in the state, or the lookup failure, that DrainClientInfo gives |
| Painter.PupilPainter.HandleClientInfo | pupil_paint/app.py:212-230 | one registration message handled in place is ClientInfoStep |
| Painter.PupilPainter.CheckForNewGazes | pupil_paint/app.py:232-262 | the loop keeps the invariant and ends in the state, or the lookup failure, that DrainGazes gives |
| Painter.PupilPainter.HandleGaze | pupil_paint/app.py:234-262 | one gaze message handled in place is GazeStep |
| Painter.PupilPainter.CheckForNewScores | pupil_paint/app.py:264-272 | the trigger, mirror copy and score drain end in the state, or the failure on a non-score message, that ScoreTick gives |
| Painter.FrameStep | pupil_paint/app.py:166-168 | no contract of its own; Tick is proved equal to it, and its three stages are specified by DrainClientInfo, DrainGazes and ScoreTick |
| Painter.PupilPainter.Tick | pupil_paint/app.py:166-168 | one frame's bookkeeping (registrations, then gaze, then scores) is FrameStep and keeps the invariant |
| Painter.PupilPainter.Cleanup | pupil_paint/app.py:274-281 | the Quit fan-out is ShutdownFanOut: a Quit to the server, the score engine and each current client's session |
| Painter.PupilPainter.DrawScoreboard | pupil_paint/app.py:293-308 | one row per palette-coloured entry in scoreboard order, the k-th drawn 80 px below the first at 1.1 tags |

## Left out

- Rendering stays out. This covers pygame drawing, the grey frame, the
  crosshairs, the markers and QR code, the FPS text, and the percentage
  text and bars of the scoreboard. None of it feeds back into the state.
- The brush stamp (tint, random rotation, alpha blit) is the parameter
  `stamp`, a function from (canvas, centre, colour) to canvas. It is only
  assumed to keep the canvas size. The random angle is not modelled.
- Time stays out: `time.time()`, `clock.tick`, the one-second crosshair
  freshness check and the engine's idle sleep. The gaze time is the
  parameter `now`.
- Processes and queues are sequences.
  - Starting a client's process appends a `StartedSession` with an empty command
    list.
  - The score engine picking up its queue is the function `EngineServes`.
  - `join` and the unlinking of the shared memory are not modelled.
  - The race between the engine taking a request and finishing it cannot be
    expressed sequentially. The single-request property is stated for the
    trigger queue as the orchestrator sees it.
- Closing the device at the end of a session (`device.close()`) and the
  `print` logging of the source ("Unknown command", "Starting client", the
  shutdown messages) are not modelled. They have no effect on any queue or
  on the state.
- The event loop and `check_for_events` (pygame events) are not modelled.
  Only the bookkeeping calls of one frame are modelled, as `Tick`.
- The registration server (server.py), the image helpers and the local-IP
  lookup are not part of this model. They are HTTP plumbing, image
  synthesis and a socket call.
- The device SDK, the gaze mapper and reading the intrinsics JSON file
  become inputs.
  - `IntrinsicsFile` is the file's content.
  - `Device` holds the serials and the live calibration.
  - The trace gives the mapped gaze of each receive.
  - The priming receive's result is discarded, as in the source, so it does
    not appear.
- A session whose device has neither serial fails on an unassigned
  `calibration` before sending anything. The model shows this as the end
  `NoCalibration` with no output.
- The trace is finite. When it runs out while the session or the engine is
  still running, the run ends as `TraceEnded` (engine: not quit).
- Floating point is modelled as exact reals. With a tag size of 200 the
  canvas rectangle is integral, so the truncation of pygame's `Rect` does
  not arise. The first scoreboard row is at exactly 220, where the source
  computes 200 * 1.1 in binary floating point.
- The orchestrator on a screen of at most 300 px wide or 200 px high is
  not modelled. There the canvas surface has negative size or the shared
  segment would have size zero, and the source fails at start-up. The
  constructor's requires excludes these screens.
- Session.FrameMessages: its contract states the conversion only in
  `Session.FrameMessagesConvert`, which is proved separately.
- Layout.MarkerCorners: only the number of corners is stated. Their
  positions relate to the quadrilaterals through `Layout.MarkerVerts`.
