/** The orchestrator: the table of client sessions keyed by host, the canvas,
    the scoreboard and the queues that connect it to the other processes.
    Each drain of a queue is specified by a function over a State value; the
    class PupilPainter holds the same state in fields and its methods are
    proved to do what those functions say. */
module Painter {
  import opened Messages
  import opened Layout
  import Scoring

  /** What the orchestrator keeps about one connected device (ClientMeta).
      session is the handle of the get_surface_gazes process started for it,
      an index into the list of started sessions. */
  datatype ClientMeta = ClientMeta(
    host: Host,
    color: Option<Rgb>,
    enabled: bool,
    lastGaze: Option<Point>,
    lastGazeTime: Option<real>,
    session: nat)

  /** A started session process and everything put on its command queue. */
  datatype StartedSession = StartedSession(host: Host, commands: seq<Msg>)

  /** The brush stamp: tint the brush with a colour, rotate it and blit it onto
      the canvas centred on a canvas-local point.  It is a drawing primitive
      outside the model. */
  type Stamp = (seq<Rgb>, Point, Rgb) -> seq<Rgb>

  /** A stamp never changes the size of the canvas. */
  ghost predicate KeepsSize(stamp: Stamp) {
    forall c, p, col :: |stamp(c, p, col)| == |c|
  }

  /** Everything the orchestrator's bookkeeping reads or writes. shared is the
      shared-memory mirror of the canvas the score engine reads. */
  datatype State = State(
    clients: map<Host, ClientMeta>,
    sessions: seq<StartedSession>,
    canvas: seq<Rgb>,
    shared: seq<Rgb>,
    scoreboard: seq<Score>,
    clientInfoQueue: seq<Msg>,
    gazeDataQueue: seq<Msg>,
    serverCommandQueue: seq<Msg>,
    scoreTriggerQueue: seq<Msg>,
    newScoreQueue: seq<Msg>)

  /** Why a drain stops with an exception, which ends the orchestrator. */
  datatype Fault =
    | UnknownHost(host: Host)  // a lookup of an unregistered host in the client table
    | NotAScore(msg: Msg)      // a message without scores on the score queue

  datatype Outcome = Done(state: State) | Crashed(state: State, fault: Fault)

  /** A method's final state and the fault it stopped on, if any, as an outcome. */
  function ToOutcome(s: State, fault: Option<Fault>): Outcome {
    if fault.None? then Done(s) else Crashed(s, fault.value)
  }

  /** Session i is the one the client table currently holds for its host. */
  predicate Current(clients: map<Host, ClientMeta>, sessions: seq<StartedSession>, i: nat)
    requires i < |sessions|
  {
    sessions[i].host in clients && clients[sessions[i].host].session == i
  }

  /** The client table's invariant: each entry is stored under its own host and
      points at a started session of that host, and every started session
      that is no longer current has been sent a Quit. */
  ghost predicate Inv(s: State) {
    && (forall h :: h in s.clients ==>
          s.clients[h].host == h && s.clients[h].session < |s.sessions| &&
          s.sessions[s.clients[h].session].host == h)
    && (forall i :: 0 <= i < |s.sessions| && !Current(s.clients, s.sessions, i) ==>
          Quit in s.sessions[i].commands)
  }

  /** The ClientMeta constructor: no selection, not enabled, no gaze yet. */
  function NewClient(host: Host, color: Option<Rgb>, session: nat): ClientMeta {
    ClientMeta(host, color, false, None, None, session)
  }

  /** Put a Quit on the command queue of session i. */
  function SendQuit(sessions: seq<StartedSession>, i: nat): seq<StartedSession>
    requires i < |sessions|
  {
    sessions[i := sessions[i].(commands := sessions[i].commands + [Quit])]
  }

  /** ClientStatus(h, "new"): terminate the host's previous session, carry its
      colour forward and start a fresh one. */
  function Register(s: State, h: Host): State
    requires Inv(s)
  {
    if h in s.clients then
      var previous := s.clients[h];
      var sessions := SendQuit(s.sessions, previous.session);
      s.(clients := s.clients[h := NewClient(h, previous.color, |sessions|)],
         sessions := sessions + [StartedSession(h, [])])
    else
      s.(clients := s.clients[h := NewClient(h, None, |s.sessions|)],
         sessions := s.sessions + [StartedSession(h, [])])
  }

  /** Replacing a client's entry by one with the same host and session keeps
      the invariant: which sessions are current does not change. */
  lemma RetagKeepsInv(s: State, h: Host, c: ClientMeta)
    requires Inv(s)
    requires h in s.clients && c.host == h && c.session == s.clients[h].session
    ensures Inv(s.(clients := s.clients[h := c]))
  {
    var t := s.(clients := s.clients[h := c]);
    forall i | 0 <= i < |s.sessions|
      ensures Current(t.clients, t.sessions, i) == Current(s.clients, s.sessions, i)
    {
    }
  }

  /** A registration keeps the invariant: the replaced session, the only one
      that stops being current, is sent a Quit. */
  lemma RegisterKeepsInv(s: State, h: Host)
    requires Inv(s)
    ensures Inv(Register(s, h))
  {
    var t := Register(s, h);
    var n := |s.sessions|;
    if h in s.clients {
      var p := s.clients[h].session;
      forall i | 0 <= i < |t.sessions| && !Current(t.clients, t.sessions, i)
        ensures Quit in t.sessions[i].commands
      {
        if i == p {
          assert t.sessions[i].commands == s.sessions[i].commands + [Quit];
          assert Quit == t.sessions[i].commands[|s.sessions[i].commands|];
        } else {
          assert i < n && t.sessions[i] == s.sessions[i];
          assert !Current(s.clients, s.sessions, i);
        }
      }
    } else {
      forall i | 0 <= i < |t.sessions| && !Current(t.clients, t.sessions, i)
        ensures Quit in t.sessions[i].commands
      {
        assert i < n && t.sessions[i] == s.sessions[i];
        assert !Current(s.clients, s.sessions, i);
      }
    }
  }

  /** One message of the registration queue. */
  function ClientInfoStep(s: State, m: Msg): (r: Outcome)
    requires Inv(s)
    ensures Inv(r.state)
    // only the client table and the started sessions can change
    ensures r.state == s.(clients := r.state.clients, sessions := r.state.sessions)
  {
    match m
    case ClientStatus(h, status) =>
      if status == StatusNew then RegisterKeepsInv(s, h); Done(Register(s, h)) else Done(s)
    case Draw(h, color, enabled) =>
      if h in s.clients then
        var c := s.clients[h].(color := color, enabled := enabled);
        RetagKeepsInv(s, h, c);
        Done(s.(clients := s.clients[h := c]))
      else Crashed(s, UnknownHost(h))
    case _ => Done(s)
  }

  /** check_for_new_clients: handle the registration queue until it is empty
      or a lookup fails. */
  function DrainClientInfo(s: State): (r: Outcome)
    requires Inv(s)
    ensures Inv(r.state)
    ensures r.state == s.(clients := r.state.clients, sessions := r.state.sessions,
                          clientInfoQueue := r.state.clientInfoQueue)
    decreases |s.clientInfoQueue|
  {
    if s.clientInfoQueue == [] then Done(s)
    else
      var m := s.clientInfoQueue[0];
      match ClientInfoStep(s.(clientInfoQueue := s.clientInfoQueue[1..]), m)
      case Crashed(t, f) => Crashed(t, f)
      case Done(t) => DrainClientInfo(t)
  }

  /** A registration drain that completes leaves its queue empty. */
  lemma {:induction false} DrainClientInfoEmpties(s: State)
    requires Inv(s)
    ensures DrainClientInfo(s).Done? ==> DrainClientInfo(s).state.clientInfoQueue == []
    decreases |s.clientInfoQueue|
  {
    if s.clientInfoQueue != [] {
      var r := ClientInfoStep(s.(clientInfoQueue := s.clientInfoQueue[1..]), s.clientInfoQueue[0]);
      if r.Done? {
        DrainClientInfoEmpties(r.state);
      }
    }
  }

  /** The paint gate: the client is enabled, has a colour, and the gaze's x
      lies within the canvas columns.  The y coordinate is not checked. */
  predicate Paints(c: ClientMeta, rect: Rect, x: real) {
    c.enabled && c.color.Some? && rect.x as real <= x < (rect.x + rect.w) as real
  }

  /** One message of the gaze queue. */
  function GazeStep(stamp: Stamp, rect: Rect, now: real, s: State, m: Msg): (r: Outcome)
    ensures r.state.clients.Keys == s.clients.Keys
    ensures KeepsSize(stamp) ==> |r.state.canvas| == |s.canvas|
    // only the client table, the canvas and the server's queue can change
    ensures r.state == s.(clients := r.state.clients, canvas := r.state.canvas,
                          serverCommandQueue := r.state.serverCommandQueue)
  {
    match m
    case GazePoint(h, x, y) =>
      if h !in s.clients then Crashed(s, UnknownHost(h))
      else
        var c := s.clients[h].(lastGaze := Some(Point(x, y)), lastGazeTime := Some(now));
        var canvas :=
          if Paints(c, rect, x) then stamp(s.canvas, Point(x - rect.x as real, y - rect.y as real), c.color.value)
          else s.canvas;
        Done(s.(clients := s.clients[h := c], canvas := canvas))
    case ClientStatus(h, status) =>
      if status == StatusStarted then Done(s.(serverCommandQueue := s.serverCommandQueue + [m])) else Done(s)
    case _ => Done(s)
  }

  /** check_for_new_gazes: handle the gaze queue until it is empty or a lookup
      fails. */
  function DrainGazes(stamp: Stamp, rect: Rect, now: real, s: State): (r: Outcome)
    ensures r.state.clients.Keys == s.clients.Keys
    ensures r.state == s.(clients := r.state.clients, canvas := r.state.canvas,
                          serverCommandQueue := r.state.serverCommandQueue,
                          gazeDataQueue := r.state.gazeDataQueue)
    decreases |s.gazeDataQueue|
  {
    if s.gazeDataQueue == [] then Done(s)
    else
      var m := s.gazeDataQueue[0];
      match GazeStep(stamp, rect, now, s.(gazeDataQueue := s.gazeDataQueue[1..]), m)
      case Crashed(t, f) => Crashed(t, f)
      case Done(t) => DrainGazes(stamp, rect, now, t)
  }

  /** The score trigger: mirror the canvas and request a score only when the
      trigger queue is empty. */
  function Trigger(s: State): State {
    if s.scoreTriggerQueue == [] then s.(shared := s.canvas, scoreTriggerQueue := [CalculateScore]) else s
  }

  /** Drain the score queue; each result replaces the scoreboard wholesale. */
  function DrainScores(s: State): (r: Outcome)
    ensures r.state == s.(scoreboard := r.state.scoreboard, newScoreQueue := r.state.newScoreQueue)
    decreases |s.newScoreQueue|
  {
    if s.newScoreQueue == [] then Done(s)
    else
      var m := s.newScoreQueue[0];
      var t := s.(newScoreQueue := s.newScoreQueue[1..]);
      if m.UpdatedScores? then DrainScores(t.(scoreboard := m.scores)) else Crashed(t, NotAScore(m))
  }

  /** check_for_new_scores. */
  function ScoreTick(s: State): Outcome {
    DrainScores(Trigger(s))
  }

  /** The fan-out of Quit at shutdown: to the server, to the score engine and to
      the current session of every client. */
  function ShutdownFanOut(s: State): State {
    s.(serverCommandQueue := s.serverCommandQueue + [Quit],
       scoreTriggerQueue := s.scoreTriggerQueue + [Quit],
       sessions := seq(|s.sessions|, i requires 0 <= i < |s.sessions| =>
         if Current(s.clients, s.sessions, i) then s.sessions[i].(commands := s.sessions[i].commands + [Quit])
         else s.sessions[i]))
  }

  /** One pass of the frame loop's bookkeeping: registrations, then gaze, then
      scores; an exception ends the pass where it happens. */
  function FrameStep(stamp: Stamp, rect: Rect, now: real, s: State): Outcome
    requires Inv(s)
  {
    match DrainClientInfo(s)
    case Crashed(t, f) => Crashed(t, f)
    case Done(t) =>
      match DrainGazes(stamp, rect, now, t)
      case Crashed(u, f) => Crashed(u, f)
      case Done(u) => ScoreTick(u)
  }

  /** The score process picking up its trigger queue: it serves the commands
      queued so far (the histogram is taken of the shared mirror) and puts its
      results on the score queue. */
  function EngineServes(s: State): (r: State)
    ensures r == s.(scoreTriggerQueue := r.scoreTriggerQueue, newScoreQueue := r.newScoreQueue)
    ensures var n := |s.scoreTriggerQueue| - |r.scoreTriggerQueue|;
      0 <= n && r.scoreTriggerQueue == s.scoreTriggerQueue[n..] &&
      r.newScoreQueue == s.newScoreQueue + Scoring.Engine(s.shared, s.scoreTriggerQueue[..n]).outputs
  {
    var e := Scoring.Engine(s.shared, s.scoreTriggerQueue);
    Scoring.EngineUsesOnlyTaken(s.shared, s.scoreTriggerQueue);
    s.(scoreTriggerQueue := s.scoreTriggerQueue[e.taken..], newScoreQueue := s.newScoreQueue + e.outputs)
  }

  // ---------------------------------------------------------------------------
  // Properties of the registration queue

  /** After ClientStatus(h, "new") the table holds a client for h that is not
      enabled, has no gaze yet, owns a freshly started session with an empty
      command queue, and inherits the colour of the client it replaces (none if
      h was new).  The replaced client's session receives exactly one Quit;
      no other session and no other client changes.  Afterwards the fresh
      session is the only one of h that has not been told to quit. */
  lemma RegisterReplaces(s: State, h: Host)
    requires Inv(s)
    ensures ClientInfoStep(s, ClientStatus(h, StatusNew)).Done?
    ensures var t := ClientInfoStep(s, ClientStatus(h, StatusNew)).state;
      && t.clients.Keys == s.clients.Keys + {h}
      && (forall k :: k in s.clients && k != h ==> t.clients[k] == s.clients[k])
      && t.clients[h].color == (if h in s.clients then s.clients[h].color else None)
      && !t.clients[h].enabled && t.clients[h].lastGaze.None? && t.clients[h].lastGazeTime.None?
      && |t.sessions| == |s.sessions| + 1
      && t.clients[h].session == |s.sessions| && t.sessions[|s.sessions|] == StartedSession(h, [])
      && (h in s.clients ==>
            t.sessions[s.clients[h].session].commands == s.sessions[s.clients[h].session].commands + [Quit])
      && (forall i :: 0 <= i < |s.sessions| && !(h in s.clients && i == s.clients[h].session) ==>
            t.sessions[i] == s.sessions[i])
      && (forall i :: 0 <= i < |t.sessions| && t.sessions[i].host == h && Quit !in t.sessions[i].commands ==>
            i == t.clients[h].session)
  {
    var t := ClientInfoStep(s, ClientStatus(h, StatusNew)).state;
    assert t == Register(s, h);
  }

  /** Draw(h, colour, enabled) for a registered host sets that client's colour
      and enabled flag and nothing else; for an unregistered host the lookup
      fails and nothing changes. */
  lemma DrawUpdatesOnlyItsHost(s: State, h: Host, color: Option<Rgb>, enabled: bool)
    requires Inv(s)
    ensures var r := ClientInfoStep(s, Draw(h, color, enabled));
      && (r.Done? <==> h in s.clients)
      && (r.Crashed? ==> r.state == s && r.fault == UnknownHost(h))
      && (r.Done? ==>
            && r.state.clients.Keys == s.clients.Keys
            && r.state.clients[h] == s.clients[h].(color := color, enabled := enabled)
            && (forall k :: k in s.clients && k != h ==> r.state.clients[k] == s.clients[k])
            && r.state.sessions == s.sessions && r.state.canvas == s.canvas)
  {
  }

  /** Only a "new" status and a Draw have a branch on the registration queue:
      any other message, a ClientIdentify included, leaves the state as it was. */
  lemma RegistrationIgnoresOtherMessages(s: State, m: Msg)
    requires Inv(s)
    requires !(m.ClientStatus? && m.status == StatusNew) && !m.Draw?
    ensures ClientInfoStep(s, m) == Done(s)
  {
  }

  /** Two registrations of the same unknown host in one drain: the first
      session gets exactly one Quit and the second is the one the table holds. */
  lemma TwoRegistrations(s: State, h: Host)
    requires Inv(s) && h !in s.clients
    requires s.clientInfoQueue == [ClientStatus(h, StatusNew), ClientStatus(h, StatusNew)]
    ensures DrainClientInfo(s).Done?
    ensures var t := DrainClientInfo(s).state;
      && t.sessions == s.sessions + [StartedSession(h, [Quit]), StartedSession(h, [])]
      && h in t.clients && t.clients[h].session == |s.sessions| + 1
      && t.clientInfoQueue == []
  {
    var m := ClientStatus(h, StatusNew);
    var s1 := s.(clientInfoQueue := [m]);
    assert s.clientInfoQueue[1..] == [m];
    var t1 := Register(s1, h);
    assert ClientInfoStep(s1, m) == Done(t1);
    assert DrainClientInfo(s) == DrainClientInfo(t1);
    var s2 := t1.(clientInfoQueue := []);
    assert t1.clientInfoQueue[1..] == [];
    var t2 := Register(s2, h);
    assert ClientInfoStep(s2, m) == Done(t2);
    assert DrainClientInfo(t1) == DrainClientInfo(t2) == Done(t2);
    assert t1.sessions == s.sessions + [StartedSession(h, [])];
    var n := |s.sessions|;
    assert t1.sessions[n].commands + [Quit] == [Quit];
    var quitted := SendQuit(t1.sessions, n);
    assert |quitted| == n + 1;
    assert forall i :: 0 <= i < n ==> quitted[i] == s.sessions[i];
    assert quitted[n] == StartedSession(h, [Quit]);
    assert quitted == s.sessions + [StartedSession(h, [Quit])];
  }

  // ---------------------------------------------------------------------------
  // Properties of the gaze queue

  /** Handling a gaze message keeps the invariant: a recorded gaze changes
      neither the host nor the session of its client. */
  lemma GazeStepKeepsInv(stamp: Stamp, rect: Rect, now: real, s: State, m: Msg)
    requires Inv(s)
    ensures Inv(GazeStep(stamp, rect, now, s, m).state)
  {
    if m.GazePoint? && m.host in s.clients {
      RetagKeepsInv(s, m.host, s.clients[m.host].(lastGaze := Some(Point(m.x, m.y)), lastGazeTime := Some(now)));
    }
  }

  /** So does a whole drain of the gaze queue. */
  lemma {:induction false} DrainGazesKeepsInv(stamp: Stamp, rect: Rect, now: real, s: State)
    requires Inv(s)
    ensures Inv(DrainGazes(stamp, rect, now, s).state)
    decreases |s.gazeDataQueue|
  {
    if s.gazeDataQueue != [] {
      var s' := s.(gazeDataQueue := s.gazeDataQueue[1..]);
      GazeStepKeepsInv(stamp, rect, now, s', s.gazeDataQueue[0]);
      var r := GazeStep(stamp, rect, now, s', s.gazeDataQueue[0]);
      if r.Done? {
        DrainGazesKeepsInv(stamp, rect, now, r.state);
      }
    }
  }

  /** A GazePoint of a registered host always records the gaze position and
      time; the canvas changes only through one stamp, at the canvas-local
      point, in the client's colour, and only when the paint gate holds.  A
      GazePoint of an unregistered host fails the lookup. */
  lemma GazeRecordsThenGates(stamp: Stamp, rect: Rect, now: real, s: State, h: Host, x: real, y: real)
    ensures var r := GazeStep(stamp, rect, now, s, GazePoint(h, x, y));
      && (r.Done? <==> h in s.clients)
      && (r.Crashed? ==> r.state == s && r.fault == UnknownHost(h))
      && (r.Done? ==>
            var c := s.clients[h];
            && r.state.clients[h] == c.(lastGaze := Some(Point(x, y)), lastGazeTime := Some(now))
            && (forall k :: k in s.clients && k != h ==> r.state.clients[k] == s.clients[k])
            && (r.state.canvas != s.canvas ==> c.enabled && c.color.Some? && rect.x as real <= x < (rect.x + rect.w) as real)
            && (Paints(c, rect, x) ==>
                  r.state.canvas == stamp(s.canvas, Point(x - rect.x as real, y - rect.y as real), c.color.value))
            && r.state.sessions == s.sessions && r.state.serverCommandQueue == s.serverCommandQueue)
  {
  }

  /** The message is not a gaze whose x lies within the canvas columns. */
  predicate OutsideColumns(rect: Rect, m: Msg) {
    m.GazePoint? ==> !(rect.x as real <= m.x < (rect.x + rect.w) as real)
  }

  /** A drain in which no gaze falls within the canvas columns leaves the
      canvas untouched, whatever the clients' colours and flags. */
  lemma {:induction false} OutsideGazeNeverPaints(stamp: Stamp, rect: Rect, now: real, s: State)
    requires forall m :: m in s.gazeDataQueue ==> OutsideColumns(rect, m)
    ensures DrainGazes(stamp, rect, now, s).state.canvas == s.canvas
    decreases |s.gazeDataQueue|
  {
    if s.gazeDataQueue != [] {
      var m := s.gazeDataQueue[0];
      var s' := s.(gazeDataQueue := s.gazeDataQueue[1..]);
      assert m in s.gazeDataQueue;
      match GazeStep(stamp, rect, now, s', m)
      case Crashed(t, f) =>
      case Done(t) =>
        assert t.canvas == s.canvas;
        assert forall m' :: m' in t.gazeDataQueue ==> m' in s.gazeDataQueue;
        OutsideGazeNeverPaints(stamp, rect, now, t);
    }
  }

  /** The "started" announcements of a gaze queue, in order. */
  function Started(q: seq<Msg>): seq<Msg> {
    if q == [] then []
    else (if q[0].ClientStatus? && q[0].status == StatusStarted then [q[0]] else []) + Started(q[1..])
  }

  /** One gaze message of a registered host (or none at all) is handled
      without an exception and forwards itself exactly when it is a "started"
      announcement. */
  lemma GazeStepForwards(stamp: Stamp, rect: Rect, now: real, s: State, m: Msg)
    requires m.GazePoint? ==> m.host in s.clients
    ensures GazeStep(stamp, rect, now, s, m).Done?
    ensures GazeStep(stamp, rect, now, s, m).state.serverCommandQueue ==
            s.serverCommandQueue + Started([m])
  {
    assert [m][1..] == [];
  }

  /** A gaze-queue message that is not a GazePoint touches nothing but the
      server's queue, and that only when it is a "started" announcement. */
  lemma GazeQueueIgnoresNonGaze(stamp: Stamp, rect: Rect, now: real, s: State, m: Msg)
    requires !m.GazePoint?
    ensures GazeStep(stamp, rect, now, s, m) == Done(s.(serverCommandQueue := s.serverCommandQueue + Started([m])))
  {
    assert [m][1..] == [];
  }

  /** When every gaze message names a registered host the drain completes and
      forwards to the server exactly the "started" announcements, in order. */
  lemma {:induction false} GazeDrainForwardsStarted(stamp: Stamp, rect: Rect, now: real, s: State)
    requires forall m :: m in s.gazeDataQueue && m.GazePoint? ==> m.host in s.clients
    ensures DrainGazes(stamp, rect, now, s).Done?
    ensures DrainGazes(stamp, rect, now, s).state.serverCommandQueue == s.serverCommandQueue + Started(s.gazeDataQueue)
    ensures DrainGazes(stamp, rect, now, s).state.gazeDataQueue == []
    decreases |s.gazeDataQueue|
  {
    var q := s.gazeDataQueue;
    if q != [] {
      GazeDrainStep(stamp, rect, now, s);
      var t := GazeStep(stamp, rect, now, s.(gazeDataQueue := q[1..]), q[0]).state;
      assert forall m' :: m' in t.gazeDataQueue ==> m' in q;
      GazeDrainForwardsStarted(stamp, rect, now, t);
      StartedCons(q);
    }
  }

  /** The first step of a gaze drain whose head message is forwardable. */
  lemma GazeDrainStep(stamp: Stamp, rect: Rect, now: real, s: State)
    requires s.gazeDataQueue != []
    requires s.gazeDataQueue[0].GazePoint? ==> s.gazeDataQueue[0].host in s.clients
    ensures var r := GazeStep(stamp, rect, now, s.(gazeDataQueue := s.gazeDataQueue[1..]), s.gazeDataQueue[0]);
      && r.Done?
      && DrainGazes(stamp, rect, now, s) == DrainGazes(stamp, rect, now, r.state)
      && r.state.serverCommandQueue == s.serverCommandQueue + Started([s.gazeDataQueue[0]])
      && r.state.gazeDataQueue == s.gazeDataQueue[1..]
      && r.state.clients.Keys == s.clients.Keys
  {
    GazeStepForwards(stamp, rect, now, s.(gazeDataQueue := s.gazeDataQueue[1..]), s.gazeDataQueue[0]);
  }

  lemma StartedCons(q: seq<Msg>)
    requires q != []
    ensures Started(q) == Started([q[0]]) + Started(q[1..])
  {
    assert [q[0]][1..] == [];
  }

  // ---------------------------------------------------------------------------
  // Properties of the score handshake

  /** The shared mirror is written and a request queued only when the trigger
      queue is empty, so with the engine picking requests up the orchestrator
      never has more than one outstanding.  The tick ends with the score queue
      empty, or with an exception. */
  lemma SingleOutstandingRequest(s: State)
    ensures var r := ScoreTick(s);
      && (s.scoreTriggerQueue == [] ==> r.state.shared == s.canvas && r.state.scoreTriggerQueue == [CalculateScore])
      && (s.scoreTriggerQueue != [] ==> r.state.shared == s.shared && r.state.scoreTriggerQueue == s.scoreTriggerQueue)
      && (Scoring.Requests(s.scoreTriggerQueue) <= 1 ==> Scoring.Requests(r.state.scoreTriggerQueue) <= 1)
      && r.state.canvas == s.canvas && r.state.clients == s.clients && r.state.sessions == s.sessions
  {
  }

  /** The last element of a non-empty queue. */
  function Last(q: seq<Msg>): Msg
    requires q != []
  {
    q[|q| - 1]
  }

  /** When the score queue holds only results, the drain empties it and the
      scoreboard becomes the scores of the last result drained; with nothing
      drained it is unchanged. */
  lemma {:induction false} ScoreboardIsLastResult(s: State)
    requires forall m :: m in s.newScoreQueue ==> m.UpdatedScores?
    ensures DrainScores(s).Done?
    ensures DrainScores(s).state.newScoreQueue == []
    ensures DrainScores(s).state.scoreboard ==
              if s.newScoreQueue == [] then s.scoreboard else Last(s.newScoreQueue).scores
    decreases |s.newScoreQueue|
  {
    if s.newScoreQueue != [] {
      var m := s.newScoreQueue[0];
      assert m in s.newScoreQueue;
      var t := s.(newScoreQueue := s.newScoreQueue[1..], scoreboard := m.scores);
      assert forall m' :: m' in t.newScoreQueue ==> m' in s.newScoreQueue;
      ScoreboardIsLastResult(t);
      if t.newScoreQueue != [] {
        assert Last(t.newScoreQueue) == Last(s.newScoreQueue);
      }
    }
  }

  /** A full round of the handshake: a tick with an idle engine mirrors the
      canvas and requests a score; the engine serves the request; the next
      tick installs the exact histogram of the canvas as it was mirrored,
      whose counts add up to the number of canvas pixels. */
  lemma ScoringRoundTrip(s: State)
    requires s.scoreTriggerQueue == [] && s.newScoreQueue == []
    ensures ScoreTick(s).Done?
    ensures var u := EngineServes(ScoreTick(s).state);
      && ScoreTick(u).Done?
      && ScoreTick(u).state.scoreboard == Scoring.Histogram(s.canvas)
      && Scoring.Total(ScoreTick(u).state.scoreboard) == |s.canvas|
  {
    var t := ScoreTick(s).state;
    assert t.shared == s.canvas && t.scoreTriggerQueue == [CalculateScore];
    var e := Scoring.Engine(t.shared, t.scoreTriggerQueue);
    assert Scoring.Engine(t.shared, []) == Scoring.EngineRun([], 0, false);
    assert e.outputs == [UpdatedScores(Scoring.Histogram(s.canvas))] && e.taken == 1;
    var u := EngineServes(t);
    assert u.scoreTriggerQueue == [] && u.newScoreQueue == e.outputs;
    ScoreboardIsLastResult(Trigger(u));
    Scoring.HistogramIsExact(s.canvas);
  }

  // ---------------------------------------------------------------------------
  // Properties of shutdown

  /** After the Quit fan-out every session ever started has been told to quit,
      and the server and the score engine each have a Quit last in their
      queues; the client table and the canvas are unchanged. */
  lemma CleanupQuitsEverything(s: State)
    requires Inv(s)
    ensures var t := ShutdownFanOut(s);
      && |t.sessions| == |s.sessions|
      && (forall i :: 0 <= i < |t.sessions| ==> Quit in t.sessions[i].commands && t.sessions[i].host == s.sessions[i].host)
      && t.serverCommandQueue == s.serverCommandQueue + [Quit]
      && t.scoreTriggerQueue == s.scoreTriggerQueue + [Quit]
      && t.clients == s.clients && t.canvas == s.canvas
  {
    var t := ShutdownFanOut(s);
    forall i | 0 <= i < |t.sessions| ensures Quit in t.sessions[i].commands {
      if Current(s.clients, s.sessions, i) {
        assert Quit == (s.sessions[i].commands + [Quit])[|s.sessions[i].commands|];
      }
    }
  }

  // ---------------------------------------------------------------------------
  // The scoreboard as drawn

  /** Vertical position of the first scoreboard row (1.1 tags down). */
  const FirstRowTop: real := TagSize as real * 1.1
  /** Vertical distance between consecutive scoreboard rows. */
  const RowAdvance: real := 80.0

  /** One drawn scoreboard row: the entry and the y at which it is drawn. */
  datatype Row = Row(entry: Score, top: real)

  /** The entries of a scoreboard that are drawn: those whose colour is in the
      palette, in scoreboard order. */
  function Shown(board: seq<Score>): seq<Score> {
    if board == [] then []
    else Shown(board[..|board| - 1]) + (if board[|board| - 1].color in Palette then [board[|board| - 1]] else [])
  }

  /** An entry is drawn exactly when it is on the scoreboard with a palette
      colour; the black background never is. */
  lemma {:induction false} ShownMembers(board: seq<Score>)
    ensures forall e :: e in Shown(board) <==> e in board && e.color in Palette
    ensures forall e :: e in Shown(board) ==> e.color != Black
  {
    if board != [] {
      var init := board[..|board| - 1];
      ShownMembers(init);
      assert board == init + [board[|board| - 1]];
    }
    assert Black !in Palette;
  }

  /** A single entry gives one row when its colour is in the palette and none
      otherwise; with ShownAppend this fixes Shown on every scoreboard. */
  lemma ShownSingle(x: Score)
    ensures Shown([x]) == if x.color in Palette then [x] else []
  {
  }

  /** Drawing keeps scoreboard order: the rows of two consecutive parts of a
      scoreboard are the rows of the first part followed by those of the second. */
  lemma {:induction false} ShownAppend(a: seq<Score>, b: seq<Score>)
    ensures Shown(a + b) == Shown(a) + Shown(b)
  {
    if b != [] {
      var b' := b[..|b| - 1];
      assert (a + b)[..|a + b| - 1] == a + b';
      assert (a + b)[|a + b| - 1] == b[|b| - 1];
      ShownAppend(a, b');
    } else {
      assert a + b == a;
    }
  }

  // ---------------------------------------------------------------------------

  class PupilPainter {
    const canvasRect: Rect
    const stamp: Stamp
    /** The shared-memory segment the score engine reads. */
    const shared: array<Rgb>

    var clients: map<Host, ClientMeta>
    var sessions: seq<StartedSession>
    var canvas: seq<Rgb>
    var scoreboard: seq<Score>
    var clientInfoQueue: seq<Msg>
    var gazeDataQueue: seq<Msg>
    var serverCommandQueue: seq<Msg>
    var scoreTriggerQueue: seq<Msg>
    var newScoreQueue: seq<Msg>

    ghost function Abs(): State
      reads this, shared
    {
      State(clients, sessions, canvas, shared[..], scoreboard, clientInfoQueue, gazeDataQueue,
            serverCommandQueue, scoreTriggerQueue, newScoreQueue)
    }

    ghost predicate Valid()
      reads this, shared
    {
      && Inv(Abs())
      && KeepsSize(stamp)
      && 0 <= canvasRect.w && 0 <= canvasRect.h
      && |canvas| == canvasRect.w * canvasRect.h == shared.Length
    }

    /** Start-up: the queues, the canvas filled with the background colour, a
        zero-filled shared segment of the same size, an empty client table and
        scoreboard, and the palette sent to the server. */
    constructor (screenW: int, screenH: int, stamp: Stamp)
      requires screenW > TagSize * 3 / 2 && screenH > TagSize
      requires KeepsSize(stamp)
      ensures Valid() && fresh(shared)
      ensures canvasRect == CanvasRect(screenW, screenH) && this.stamp == stamp
      ensures clients == map[] && sessions == [] && scoreboard == []
      ensures |canvas| == canvasRect.w * canvasRect.h && (forall i :: 0 <= i < |canvas| ==> canvas[i] == Black)
      ensures shared[..] == canvas
      ensures clientInfoQueue == [] && gazeDataQueue == [] && scoreTriggerQueue == [] && newScoreQueue == []
      ensures serverCommandQueue == [Swatches(Palette)]
    {
      var rect := CanvasRect(screenW, screenH);
      canvasRect := rect;
      this.stamp := stamp;
      canvas := seq(rect.w * rect.h, _ => Black);
      shared := new Rgb[rect.w * rect.h](_ => Black);
      clients, sessions, scoreboard := map[], [], [];
      clientInfoQueue, gazeDataQueue, scoreTriggerQueue, newScoreQueue := [], [], [], [];
      serverCommandQueue := [Swatches(Palette)];
    }

    method CheckForNewClients() returns (fault: Option<Fault>)
      requires Valid()
      modifies this
      ensures Valid()
      ensures ToOutcome(Abs(), fault) == DrainClientInfo(old(Abs()))
    {
      while clientInfoQueue != []
        invariant Valid()
        invariant DrainClientInfo(Abs()) == DrainClientInfo(old(Abs()))
        decreases |clientInfoQueue|
      {
        var message := clientInfoQueue[0];
        clientInfoQueue := clientInfoQueue[1..];
        fault := HandleClientInfo(message);
        if fault.Some? {
          return;
        }
      }
      fault := None;
    }

    /** The body of the registration loop for one message already taken off
        the queue. */
    method HandleClientInfo(message: Msg) returns (fault: Option<Fault>)
      requires Inv(Abs())
      modifies this
      ensures ToOutcome(Abs(), fault) == ClientInfoStep(old(Abs()), message)
    {
      fault := None;
      match message
      case ClientStatus(clientIp, status) =>
        if status == StatusNew {
          var oldColor := None;
          if clientIp in clients {
            var previous := clients[clientIp];
            sessions := SendQuit(sessions, previous.session);
            oldColor := previous.color;
          }
          var client := NewClient(clientIp, oldColor, |sessions|);
          sessions := sessions + [StartedSession(clientIp, [])];  // the client's process is started
          clients := clients[clientIp := client];
        }
      case Draw(host, color, enabled) =>
        if host !in clients {
          return Some(UnknownHost(host));
        }
        var client := clients[host];
        clients := clients[host := client.(color := color, enabled := enabled)];
      case _ =>
        // any other message (a ClientIdentify among them) has no branch
    }

    method CheckForNewGazes(now: real) returns (fault: Option<Fault>)
      requires Valid()
      modifies this
      ensures Valid()
      ensures ToOutcome(Abs(), fault) == DrainGazes(stamp, canvasRect, now, old(Abs()))
    {
      while gazeDataQueue != []
        invariant Valid()
        invariant DrainGazes(stamp, canvasRect, now, Abs()) == DrainGazes(stamp, canvasRect, now, old(Abs()))
        decreases |gazeDataQueue|
      {
        var data := gazeDataQueue[0];
        gazeDataQueue := gazeDataQueue[1..];
        ghost var popped := Abs();
        fault := HandleGaze(data, now);
        GazeStepKeepsInv(stamp, canvasRect, now, popped, data);
        if fault.Some? {
          return;
        }
      }
      fault := None;
    }

    /** The body of the gaze loop for one message already taken off the queue. */
    method HandleGaze(data: Msg, now: real) returns (fault: Option<Fault>)
      modifies this
      ensures ToOutcome(Abs(), fault) == GazeStep(stamp, canvasRect, now, old(Abs()), data)
    {
      fault := None;
      ghost var s := Abs();
      match data
      case GazePoint(host, x, y) =>
        if host !in clients {
          return Some(UnknownHost(host));
        }
        var clientInfo := clients[host].(lastGaze := Some(Point(x, y)), lastGazeTime := Some(now));
        var painted := canvas;
        if !clientInfo.enabled || clientInfo.color.None? {
        } else if canvasRect.x as real <= x < (canvasRect.x + canvasRect.w) as real {
          painted := stamp(canvas, Point(x - canvasRect.x as real, y - canvasRect.y as real), clientInfo.color.value);
        }
        assert GazeStep(stamp, canvasRect, now, s, data) == Done(s.(clients := s.clients[host := clientInfo], canvas := painted));
        clients, canvas := clients[host := clientInfo], painted;
      case ClientStatus(host, status) =>
        if status == StatusStarted {
          serverCommandQueue := serverCommandQueue + [data];
        }
      case _ =>
    }

    method CheckForNewScores() returns (fault: Option<Fault>)
      requires Valid()
      modifies this, shared
      ensures Valid()
      ensures ToOutcome(Abs(), fault) == ScoreTick(old(Abs()))
    {
      if scoreTriggerQueue == [] {
        forall i | 0 <= i < shared.Length {
          shared[i] := canvas[i];
        }
        assert shared[..] == canvas;
        scoreTriggerQueue := scoreTriggerQueue + [CalculateScore];
      }
      assert Abs() == Trigger(old(Abs()));
      while newScoreQueue != []
        invariant Valid()
        invariant DrainScores(Abs()) == ScoreTick(old(Abs()))
        decreases |newScoreQueue|
      {
        var message := newScoreQueue[0];
        newScoreQueue := newScoreQueue[1..];
        if !message.UpdatedScores? {
          return Some(NotAScore(message));
        }
        scoreboard := message.scores;
      }
      fault := None;
    }

    /** The bookkeeping part of one frame. */
    method Tick(now: real) returns (fault: Option<Fault>)
      requires Valid()
      modifies this, shared
      ensures Valid()
      ensures ToOutcome(Abs(), fault) == FrameStep(stamp, canvasRect, now, old(Abs()))
    {
      fault := CheckForNewClients();
      if fault.Some? {
        return;
      }
      fault := CheckForNewGazes(now);
      if fault.Some? {
        return;
      }
      fault := CheckForNewScores();
    }

    /** The Quit fan-out of cleanup. */
    method Cleanup()
      requires Valid()
      modifies this
      ensures Valid()
      ensures Abs() == ShutdownFanOut(old(Abs()))
    {
      serverCommandQueue := serverCommandQueue + [Quit];
      scoreTriggerQueue := scoreTriggerQueue + [Quit];
      ghost var before := sessions;
      var quitting := sessions;
      var remaining := clients.Keys;
      while remaining != {}
        invariant remaining <= clients.Keys
        invariant |quitting| == |before|
        invariant forall i :: 0 <= i < |quitting| ==>
                    quitting[i] == if Current(clients, before, i) && before[i].host !in remaining
                                   then before[i].(commands := before[i].commands + [Quit]) else before[i]
        decreases remaining
      {
        var host :| host in remaining;
        var c := clients[host];
        quitting := SendQuit(quitting, c.session);
        remaining := remaining - {host};
      }
      sessions := quitting;
      assert sessions == ShutdownFanOut(old(Abs())).sessions;
    }

    /** The filter and layout of draw_scoreboard: one row per palette-coloured
        entry, in scoreboard order, each 80 pixels below the previous. */
    method DrawScoreboard() returns (rows: seq<Row>)
      ensures |rows| == |Shown(scoreboard)|
      ensures forall i :: 0 <= i < |rows| ==>
                rows[i].entry == Shown(scoreboard)[i] && rows[i].top == FirstRowTop + RowAdvance * i as real
    {
      var y := FirstRowTop;
      rows := [];
      for i := 0 to |scoreboard|
        invariant |rows| == |Shown(scoreboard[..i])|
        invariant forall k :: 0 <= k < |rows| ==>
                    rows[k].entry == Shown(scoreboard[..i])[k] && rows[k].top == FirstRowTop + RowAdvance * k as real
        invariant y == FirstRowTop + RowAdvance * |rows| as real
      {
        assert scoreboard[..i + 1][..i] == scoreboard[..i];
        var entry := scoreboard[i];
        if entry.color !in Palette {
          continue;
        }
        rows := rows + [Row(entry, y)];
        y := y + RowAdvance;
      }
      assert scoreboard[..|scoreboard|] == scoreboard;
    }
  }
}
