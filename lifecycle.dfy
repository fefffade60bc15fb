/**
 * The run/pause/stop state machine of the single test session: the action dispatcher as a function
 * on the fields it changes, the elapsed-time algebra across pause and resume, and the response snapshot.
 * Instants are integers; 0 stands for Go's zero `time.Time`.
 */
module Lifecycle {
  import opened Fields
  import opened Messages

  /** The fields of `State` the dispatcher changes. */
  datatype Session = Session(running: bool, startTime: int, pausedAt: int, test: string)

  /** A call into the hardware bridge. */
  datatype Hook = HardwareStart | HardwareUnpause | HardwarePause | HardwareStop | HardwareCommand(command: string)

  /** The session after an action, and the hooks the action called, in order. */
  datatype Step = Step(session: Session, hooks: seq<Hook>)

  /** The run/pause invariant: paused implies running, and stopped clears both instants. */
  predicate Consistent(s: Session) {
    (s.pausedAt != 0 ==> s.running) && (!s.running ==> s.startTime == 0 && s.pausedAt == 0)
  }

  /** The invariant strengthened for a clock that has reached `clock` and only moves forward from 1. */
  predicate Timed(s: Session, clock: int) {
    Consistent(s) &&
    (s.running ==> 0 < s.startTime <= clock && (s.pausedAt != 0 ==> s.startTime <= s.pausedAt <= clock))
  }

  /** Running and not paused: the branch of the field refresh that reads the instruments. */
  predicate IsActive(s: Session) {
    s.running && s.pausedAt == 0
  }

  /** The action `switch` of the handler, applied at instant `now`. */
  function Dispatch(s: Session, action: string, req: Request, now: int): (r: Step)
    ensures Consistent(s) ==> Consistent(r.session)
    ensures |r.hooks| <= 1
    ensures r.session.test != s.test ==> action == "changeTest"
    ensures action !in {"start", "pause", "stop"} ==>
              r.session.running == s.running && r.session.startTime == s.startTime && r.session.pausedAt == s.pausedAt
  {
    if action == "start" then
      if !s.running then Step(s.(running := true, startTime := now, pausedAt := 0), [HardwareStart])
      else if s.pausedAt != 0 then Step(s.(startTime := s.startTime + (now - s.pausedAt), pausedAt := 0), [HardwareUnpause])
      else Step(s, [])
    else if action == "pause" then
      if s.running && s.pausedAt == 0 then Step(s.(pausedAt := now), [HardwarePause]) else Step(s, [])
    else if action == "stop" then
      if s.running then Step(s.(running := false, startTime := 0, pausedAt := 0), [HardwareStop]) else Step(s, [])
    else if action == "changeTest" then
      if req.test.Str? && req.test.s != "" then Step(s.(test := req.test.s), []) else Step(s, [])
    else if action == "command" then
      if req.command.Str? && req.command.s != "" then Step(s, [HardwareCommand(req.command.s)]) else Step(s, [])
    else
      Step(s, [])
  }

  /** Run time up to `now`: frozen at the pause instant while paused, zero while stopped. */
  function Elapsed(s: Session, now: int): int {
    if !s.running then 0 else if s.pausedAt != 0 then s.pausedAt - s.startTime else now - s.startTime
  }

  // ----- Effective transitions -----

  /** Startup from stopped: running, started now, not paused, and exactly the start hook. */
  lemma StartupEffect(s: Session, req: Request, now: int)
    requires !s.running
    ensures Dispatch(s, "start", req, now) == Step(Session(true, now, 0, s.test), [HardwareStart])
  {
  }

  /**
   * Resume from paused: the start instant moves forward by the length of the pause, so the time from
   * the new start instant to the resume instant is the run time accumulated before the pause.
   */
  lemma ResumeKeepsElapsed(s: Session, req: Request, t: int)
    requires s.running && s.pausedAt != 0
    ensures var r := Dispatch(s, "start", req, t);
      r.hooks == [HardwareUnpause] &&
      r.session == s.(startTime := s.startTime + (t - s.pausedAt), pausedAt := 0) &&
      t - r.session.startTime == s.pausedAt - s.startTime &&
      Elapsed(r.session, t) == Elapsed(s, t)
  {
  }

  /** Pause while running: records the instant, calls the pause hook, and freezes the elapsed time. */
  lemma PauseFreezesElapsed(s: Session, req: Request, t: int, later: int)
    requires IsActive(s) && t != 0
    ensures var r := Dispatch(s, "pause", req, t);
      r == Step(s.(pausedAt := t), [HardwarePause]) && Elapsed(r.session, later) == Elapsed(s, t)
  {
  }

  /** Stop while running: clears the three fields and calls exactly the stop hook. */
  lemma StopEffect(s: Session, req: Request, now: int)
    requires s.running
    ensures Dispatch(s, "stop", req, now) == Step(Session(false, 0, 0, s.test), [HardwareStop])
  {
  }

  /** While active, elapsed time advances with the clock. */
  lemma ElapsedAdvances(s: Session, t1: int, t2: int)
    requires IsActive(s)
    ensures Elapsed(s, t2) == Elapsed(s, t1) + (t2 - t1)
  {
  }

  /** At any instant not before the clock, elapsed time lies between zero and the time since the start instant. */
  lemma ElapsedBounded(s: Session, clock: int, now: int)
    requires Timed(s, clock) && clock <= now
    ensures 0 <= Elapsed(s, now)
    ensures s.running ==> Elapsed(s, now) <= now - s.startTime
  {
  }

  /** The lifecycle actions change something exactly when they call a hook, given a nonzero instant. */
  lemma HookIffChange(s: Session, action: string, req: Request, now: int)
    requires action in {"start", "pause", "stop"} && now != 0
    ensures var r := Dispatch(s, action, req, now); r.hooks != [] <==> r.session != s
  {
  }

  // ----- Guarded no-ops -----

  /** Start while running unpaused, pause while stopped or paused, and stop while stopped change nothing and call nothing. */
  lemma GuardedNoOps(s: Session, action: string, req: Request, now: int)
    requires (action == "start" && IsActive(s)) ||
             (action == "pause" && (!s.running || s.pausedAt != 0)) ||
             (action == "stop" && !s.running)
    ensures Dispatch(s, action, req, now) == Step(s, [])
  {
  }

  /** `status`, `ping` and every unknown action change nothing and call nothing. */
  lemma PassiveActions(s: Session, action: string, req: Request, now: int)
    requires action !in {"start", "pause", "stop", "changeTest", "command"}
    ensures Dispatch(s, action, req, now) == Step(s, [])
  {
  }

  /** `command` forwards its payload exactly when it is a non-empty string, and changes no session field. */
  lemma CommandForwards(s: Session, req: Request, now: int)
    ensures var r := Dispatch(s, "command", req, now);
      r.session == s && (r.hooks != [] <==> req.command.Str? && req.command.s != "") &&
      (r.hooks != [] ==> r.hooks == [HardwareCommand(req.command.s)])
  {
  }

  /** `changeTest` changes only the test name, and only to a non-empty string; it calls no hook. */
  lemma ChangeTestOnlyTest(s: Session, req: Request, now: int)
    ensures var r := Dispatch(s, "changeTest", req, now);
      r.hooks == [] &&
      r.session == (if req.test.Str? && req.test.s != "" then s.(test := req.test.s) else s)
  {
  }

  // ----- Clocked invariant -----

  /** Every action taken at a positive instant not before the clock keeps the clocked invariant. */
  lemma DispatchKeepsTimed(s: Session, clock: int, action: string, req: Request, now: int)
    requires Timed(s, clock) && 0 < now && clock <= now
    ensures Timed(Dispatch(s, action, req, now).session, now)
  {
  }

  /**
   * The pause/resume scenario: start at t0, pause 5 s later, resume 10 s after that, and the start
   * instant has moved to t0 + 10, so 20 s after t0 the session has run for 10 s.
   */
  lemma PauseResumeScenario(s: Session, req: Request, t0: int)
    requires !s.running && t0 > 0
    ensures var started := Dispatch(s, "start", req, t0).session;
      var paused := Dispatch(started, "pause", req, t0 + 5).session;
      var resumed := Dispatch(paused, "start", req, t0 + 15).session;
      resumed.running && resumed.startTime == t0 + 10 && resumed.pausedAt == 0 &&
      Elapsed(resumed, t0 + 20) == 10
  {
  }

  // ----- Response snapshot -----

  /** The response object: `startTime` is sent, as an RFC 3339 string, only when `hasStartTime` holds. */
  datatype Response = Response(running: bool, paused: bool, name: string, test: string,
                               fields: seq<StateField>, hasStartTime: bool)

  /** The snapshot of the state taken after the field refresh. */
  function Snapshot(s: Session, name: string, fields: seq<StateField>): (r: Response)
    ensures r.running == s.running && r.name == name && r.test == s.test && r.fields == fields
    ensures r.paused == (s.pausedAt != 0) && r.hasStartTime == (s.startTime != 0)
    ensures Consistent(s) ==> (r.paused ==> r.running) && (!r.running ==> !r.hasStartTime)
  {
    Response(s.running, s.pausedAt != 0, name, s.test, fields, s.startTime != 0)
  }

  /** Under the clocked invariant a response carries a start time exactly when it reports running. */
  lemma SnapshotOfTimed(s: Session, clock: int, name: string, fields: seq<StateField>)
    requires Timed(s, clock)
    ensures var r := Snapshot(s, name, fields);
      (r.hasStartTime <==> r.running) && (r.paused ==> r.running) && (r.paused <==> s.pausedAt != 0)
  {
  }
}
