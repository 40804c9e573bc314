/** One client session: the worker that talks to a tracking device, maps its
    gaze onto the screen surface and streams GazePoint messages to the
    orchestrator.  The device and the gaze mapper are outside the model: what
    they report is given as an input trace. */
module Session {
  import opened Messages

  /** Scene-camera intrinsics as the gaze mapper wants them. */
  datatype Calibration = Calibration(sceneCameraMatrix: seq<seq<real>>, sceneDistortionCoefficients: seq<real>)

  /** The packaged fallback intrinsics file (fields camera_matrix, dist_coefs). */
  datatype IntrinsicsFile = IntrinsicsFile(cameraMatrix: seq<seq<real>>, distCoefs: seq<real>)

  /** What the device reports about itself: its module serial, its glasses
      serial, and the calibration it would return when asked. */
  datatype Device = Device(moduleSerial: Option<string>, glassesSerial: Option<string>, liveCalibration: Calibration)

  /** One pass of the session loop as the outside world sees it: the commands
      found on the command queue when it is drained, and what the timed
      receive returns (None on timeout, else the gaze points the mapper put on
      the screen surface, in normalised surface coordinates). */
  datatype Iteration = Iteration(commands: seq<Msg>, frame: Option<seq<Point>>)

  /** How a session run ends. */
  datatype End =
    | NoCalibration   // neither serial present: calibration is never assigned
    | QuitReceived    // a Quit was drained and the loop stopped
    | TraceEnded      // the observed trace ran out while the loop was still running

  /** Which calibration the session hands to the gaze mapper. */
  function ChooseCalibration(device: Device, file: IntrinsicsFile): (r: Option<Calibration>)
    // with a module serial, the calibration comes from the device
    ensures device.moduleSerial.Some? ==> r == Some(device.liveCalibration)
    // without one but with a glasses serial, it comes from the packaged file
    ensures device.moduleSerial.None? && device.glassesSerial.Some? ==>
              r.Some? && r.value.sceneCameraMatrix == file.cameraMatrix &&
              r.value.sceneDistortionCoefficients == file.distCoefs
    // with neither, there is no calibration at all
    ensures r.None? <==> device.moduleSerial.None? && device.glassesSerial.None?
  {
    if device.moduleSerial.None? then
      if device.glassesSerial.Some? then Some(Calibration(file.cameraMatrix, file.distCoefs))
      else None
    else Some(device.liveCalibration)
  }

  /** Normalised surface coordinates (origin bottom-left) to screen pixels
      (origin top-left). */
  function SurfaceToScreen(p: Point, screenW: int, screenH: int): Point {
    Point(p.x * screenW as real, (1.0 - p.y) * screenH as real)
  }

  /** The inverse mapping, screen pixels back to normalised surface coordinates. */
  function ScreenToSurface(q: Point, screenW: int, screenH: int): Point
    requires screenW != 0 && screenH != 0
  {
    Point(q.x / screenW as real, 1.0 - q.y / screenH as real)
  }

  /** The conversion flips the vertical axis: the bottom edge of the surface
      (y = 0) lands on the bottom of the screen (y = height), the top edge on
      y = 0, and it is undone by ScreenToSurface. */
  lemma SurfaceToScreenFlips(p: Point, screenW: int, screenH: int)
    requires screenW != 0 && screenH != 0
    ensures p.y == 0.0 ==> SurfaceToScreen(p, screenW, screenH).y == screenH as real
    ensures p.y == 1.0 ==> SurfaceToScreen(p, screenW, screenH).y == 0.0
    ensures ScreenToSurface(SurfaceToScreen(p, screenW, screenH), screenW, screenH) == p
  {
    var w, h := screenW as real, screenH as real;
    var a := 1.0 - p.y;
    var q := SurfaceToScreen(p, screenW, screenH);
    assert q == Point(p.x * w, a * h);
    MulDiv(p.x, w);
    MulDiv(a, h);
    assert ScreenToSurface(q, screenW, screenH) == Point((p.x * w) / w, 1.0 - (a * h) / h);
  }

  lemma MulDiv(a: real, d: real)
    requires d != 0.0
    ensures (a * d) / d == a
  {
  }

  /** The messages one receive result turns into. */
  function FrameMessages(host: Host, screenW: int, screenH: int, frame: Option<seq<Point>>): (r: seq<Msg>)
    ensures frame.None? ==> r == []
    ensures frame.Some? ==> |r| == |frame.value|
    ensures forall m :: m in r ==> m.GazePoint? && m.host == host
  {
    match frame
    case None => []
    case Some(points) =>
      seq(|points|, k requires 0 <= k < |points| =>
        var q := SurfaceToScreen(points[k], screenW, screenH);
        GazePoint(host, q.x, q.y))
  }

  /** The k-th message of a frame is the k-th surface gaze converted to screen
      pixels: the mapper's order is kept and nothing is dropped. */
  lemma FrameMessagesConvert(host: Host, screenW: int, screenH: int, points: seq<Point>, k: nat)
    requires k < |points|
    ensures |FrameMessages(host, screenW, screenH, Some(points))| == |points|
    ensures FrameMessages(host, screenW, screenH, Some(points))[k] ==
            GazePoint(host, SurfaceToScreen(points[k], screenW, screenH).x, SurfaceToScreen(points[k], screenW, screenH).y)
  {
  }

  /** The gaze messages a sequence of loop passes emits, in order. */
  function Emitted(host: Host, screenW: int, screenH: int, trace: seq<Iteration>): seq<Msg> {
    if trace == [] then []
    else Emitted(host, screenW, screenH, trace[..|trace| - 1]) + FrameMessages(host, screenW, screenH, trace[|trace| - 1].frame)
  }

  /** Index of the first pass whose drained commands include a Quit (|trace| if none). */
  function FirstQuit(trace: seq<Iteration>): (r: nat)
    ensures r <= |trace|
    ensures forall j :: 0 <= j < r ==> Quit !in trace[j].commands
    ensures r < |trace| ==> Quit in trace[r].commands
  {
    if trace == [] then 0
    else if Quit in trace[0].commands then 0
    else 1 + FirstQuit(trace[1..])
  }

  /** Everything a session run puts on the data queue, the number of timed
      receives it makes, and how it ends. */
  datatype Report = Report(output: seq<Msg>, receives: nat, end: End)

  /** The session as a whole, given the device and the trace of loop passes. */
  function Run(host: Host, screenW: int, screenH: int, device: Device, file: IntrinsicsFile, trace: seq<Iteration>): Report {
    if ChooseCalibration(device, file).None? then Report([], 0, NoCalibration)
    else
      var n := FirstQuit(trace);
      Report([ClientStatus(host, StatusStarted)] + Emitted(host, screenW, screenH, trace[..n]), n,
             if n < |trace| then QuitReceived else TraceEnded)
  }

  /** Emission order is trace order: the passes of a concatenated trace emit
      the concatenation of what each part emits.  In particular a timed-out
      receive contributes nothing. */
  lemma {:induction false} EmittedAppend(host: Host, screenW: int, screenH: int, t1: seq<Iteration>, t2: seq<Iteration>)
    ensures Emitted(host, screenW, screenH, t1 + t2) ==
            Emitted(host, screenW, screenH, t1) + Emitted(host, screenW, screenH, t2)
  {
    if t2 != [] {
      var t2' := t2[..|t2| - 1];
      assert (t1 + t2)[..|t1 + t2| - 1] == t1 + t2';
      assert (t1 + t2)[|t1 + t2| - 1] == t2[|t2| - 1];
      EmittedAppend(host, screenW, screenH, t1, t2');
    } else {
      assert t1 + t2 == t1;
    }
  }

  lemma EmittedStep(host: Host, screenW: int, screenH: int, trace: seq<Iteration>, n: nat)
    requires n < |trace|
    ensures Emitted(host, screenW, screenH, trace[..n + 1]) ==
            Emitted(host, screenW, screenH, trace[..n]) + FrameMessages(host, screenW, screenH, trace[n].frame)
  {
    var done := trace[..n + 1];
    assert done[..|done| - 1] == trace[..n] && done[|done| - 1] == trace[n];
  }

  /** Every emitted message is a GazePoint of this session's host. */
  lemma {:induction false} EmittedAreGazePoints(host: Host, screenW: int, screenH: int, trace: seq<Iteration>)
    ensures forall m :: m in Emitted(host, screenW, screenH, trace) ==> m.GazePoint? && m.host == host
  {
    if trace != [] {
      EmittedAreGazePoints(host, screenW, screenH, trace[..|trace| - 1]);
    }
  }

  /** A session with a calibration emits ClientStatus(host, "started") first
      and exactly once; every later message is a GazePoint of that host.  It
      performs one timed receive per pass before the first Quit and none after
      it, so a pass that drains a Quit neither receives nor emits.  Without a
      calibration the session emits nothing. */
  lemma SessionProtocol(host: Host, screenW: int, screenH: int, device: Device, file: IntrinsicsFile, trace: seq<Iteration>)
    ensures var r := Run(host, screenW, screenH, device, file, trace);
      && (r.end == NoCalibration <==> device.moduleSerial.None? && device.glassesSerial.None?)
      && (r.end == NoCalibration ==> r.output == [])
      && (r.end != NoCalibration ==>
            && |r.output| >= 1
            && r.output[0] == ClientStatus(host, StatusStarted)
            && (forall k :: 1 <= k < |r.output| ==> r.output[k].GazePoint? && r.output[k].host == host)
            && (r.end == QuitReceived <==> exists j :: 0 <= j < |trace| && Quit in trace[j].commands)
            && (forall j :: 0 <= j < r.receives ==> Quit !in trace[j].commands)
            && (r.end == QuitReceived ==> Quit in trace[r.receives].commands)
            && (r.end == TraceEnded ==> r.receives == |trace|)
            && r.output[1..] == Emitted(host, screenW, screenH, trace[..r.receives]))
  {
    var r := Run(host, screenW, screenH, device, file, trace);
    if r.end != NoCalibration {
      EmittedAreGazePoints(host, screenW, screenH, trace[..r.receives]);
      forall k | 1 <= k < |r.output| ensures r.output[k].GazePoint? && r.output[k].host == host {
        assert r.output[k] in r.output[1..];
      }
    }
  }

  /** Passes after the first Quit change nothing: the session reports the same
      output and receive count whatever follows. */
  lemma QuitIgnoresTheRest(host: Host, screenW: int, screenH: int, device: Device, file: IntrinsicsFile,
                           before: seq<Iteration>, quitting: Iteration, after1: seq<Iteration>, after2: seq<Iteration>)
    requires forall j :: 0 <= j < |before| ==> Quit !in before[j].commands
    requires Quit in quitting.commands
    ensures Run(host, screenW, screenH, device, file, before + [quitting] + after1) ==
            Run(host, screenW, screenH, device, file, before + [quitting] + after2)
  {
    var t1, t2 := before + [quitting] + after1, before + [quitting] + after2;
    assert FirstQuit(t1) == |before| by {
      assert t1[|before|] == quitting;
      assert forall j :: 0 <= j < |before| ==> t1[j] == before[j];
    }
    assert FirstQuit(t2) == |before| by {
      assert t2[|before|] == quitting;
      assert forall j :: 0 <= j < |before| ==> t2[j] == before[j];
    }
    assert t1[..|before|] == before == t2[..|before|];
  }

  /** The inner drain loop: take every command off the queue; a Quit stops the
      session, anything else is logged and ignored. */
  method DrainCommands(commands: seq<Msg>) returns (quit: bool)
    ensures quit <==> Quit in commands
  {
    quit := false;
    var i := 0;
    while i < |commands|
      invariant i <= |commands|
      invariant quit <==> Quit in commands[..i]
    {
      assert commands[..i + 1] == commands[..i] + [commands[i]];
      if commands[i] == Quit {
        quit := true;
      } else {
        // unknown command: logged and ignored
      }
      i := i + 1;
    }
    assert commands[..i] == commands;
  }

  /** The forwarding loop over one mapped frame: one GazePoint per surface
      gaze, converted to screen pixels, in the mapper's order. */
  method MapFrame(host: Host, screenW: int, screenH: int, points: seq<Point>) returns (gazes: seq<Msg>)
    ensures gazes == FrameMessages(host, screenW, screenH, Some(points))
  {
    gazes := [];
    for k := 0 to |points|
      invariant gazes == FrameMessages(host, screenW, screenH, Some(points))[..k]
    {
      var q := SurfaceToScreen(points[k], screenW, screenH);
      gazes := gazes + [GazePoint(host, q.x, q.y)];
    }
  }

  /** get_surface_gazes: choose the calibration, prime the stream with one
      receive, announce "started", then run the forwarding loop. */
  method GetSurfaceGazes(host: Host, screenW: int, screenH: int, device: Device, file: IntrinsicsFile, trace: seq<Iteration>)
    returns (output: seq<Msg>, receives: nat, end: End)
    ensures Report(output, receives, end) == Run(host, screenW, screenH, device, file, trace)
  {
    var calibration := ChooseCalibration(device, file);
    if calibration.None? {
      output, receives, end := [], 0, NoCalibration;
      return;
    }
    // the gaze mapper is built from the calibration and the marker surface;
    // the priming receive's result is discarded; "started" goes out first,
    // then everything the loop forwards
    var gazes;
    gazes, receives, end := ForwardGazes(host, screenW, screenH, trace);
    output := [ClientStatus(host, StatusStarted)] + gazes;
  }

  /** One pass of the loop: drain the command queue and, unless it held a
      Quit, map the result of one timed receive (nothing on a timeout). */
  method Pass(host: Host, screenW: int, screenH: int, pass: Iteration) returns (quit: bool, mapped: seq<Msg>)
    ensures quit <==> Quit in pass.commands
    ensures quit ==> mapped == []
    ensures !quit ==> mapped == FrameMessages(host, screenW, screenH, pass.frame)
  {
    mapped := [];
    quit := DrainCommands(pass.commands);
    if quit {
      return;
    }
    var data := pass.frame;
    if data.None? {
      return;
    }
    mapped := MapFrame(host, screenW, screenH, data.value);
  }

  /** The loop of get_surface_gazes: drain the commands, stop at a Quit,
      otherwise forward the mapped gaze of one timed receive. */
  method ForwardGazes(host: Host, screenW: int, screenH: int, trace: seq<Iteration>)
    returns (gazes: seq<Msg>, receives: nat, end: End)
    ensures receives == FirstQuit(trace)
    ensures gazes == Emitted(host, screenW, screenH, trace[..receives])
    ensures end == if receives < |trace| then QuitReceived else TraceEnded
  {
    gazes, receives := [], 0;
    var keepRunning := true;
    // the loop also stops when the observed trace runs out
    while keepRunning && receives < |trace|
      invariant receives <= |trace|
      invariant receives <= FirstQuit(trace)
      invariant !keepRunning ==> receives < |trace| && Quit in trace[receives].commands
      invariant gazes == Emitted(host, screenW, screenH, trace[..receives])
      decreases |trace| - receives, keepRunning
    {
      var quit, mapped := Pass(host, screenW, screenH, trace[receives]);
      keepRunning := !quit;
      if keepRunning {
        EmittedStep(host, screenW, screenH, trace, receives);
        gazes := gazes + mapped;
        receives := receives + 1;
      }
    }
    end := if keepRunning then TraceEnded else QuitReceived;
  }
}
