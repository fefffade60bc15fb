/**
 * The server's single global session and the per-message cycle of its WebSocket handler:
 * gate, dispatch, field refresh, snapshot. The cycle is sequential: the mutex appears only as a ghost
 * trace of its lock and unlock operations, not as a blocking primitive.
 */
module Server {
  import opened Fields
  import opened Messages
  import opened Lifecycle
  import opened Telemetry

  /** The whole server state as a value: the session, its fields, its display name, and the hooks called so far. */
  datatype Machine = Machine(session: Session, fields: seq<StateField>, name: string, hooks: seq<Hook>)

  /** One decoded inbound message, with the instant the handler reads the clock and the instrument reading. */
  datatype Message = Message(req: Request, now: int, reading: Reading)

  /** What one message produces: nothing written, a response written, or a panic inside the field refresh. */
  datatype Outcome = Dropped | Responded(response: Response) | Panicked

  /** The state right after start-up: stopped, test "001", fields built from the configuration. */
  function Initial(name: string, fields: seq<StateField>): (m: Machine)
    ensures Timed(m.session, 0)
  {
    Machine(Session(false, 0, 0, "001"), fields, name, [])
  }

  /** One pass of the handler's loop body, from the gate to the response. */
  function Process(m: Machine, msg: Message, serverKey: string): (r: (Machine, Outcome))
    ensures r.1.Dropped? <==> Gate(msg.req, serverKey).None?
    ensures r.1.Dropped? ==> r.0 == m
    ensures r.1.Panicked? <==> Gate(msg.req, serverKey).Some? && !RefreshCompletes(m.fields)
    ensures r.1.Responded? ==> r.1.response == Snapshot(r.0.session, r.0.name, r.0.fields)
    ensures Consistent(m.session) ==> Consistent(r.0.session)
    ensures r.0.name == m.name && SameLayout(r.0.fields, m.fields)
    ensures |m.hooks| <= |r.0.hooks| <= |m.hooks| + 1 && r.0.hooks[..|m.hooks|] == m.hooks
  {
    match Gate(msg.req, serverKey)
    case None => (m, Dropped)
    case Some(action) =>
      var step := Dispatch(m.session, action, msg.req, msg.now);
      var fields := Refreshed(m.fields, IsActive(step.session), msg.reading);
      var m' := Machine(step.session, fields, m.name, m.hooks + step.hooks);
      if RefreshCompletes(m.fields) then (m', Responded(Snapshot(step.session, m.name, fields)))
      else (m', Panicked)
  }

  /** The message loop of one connection: it handles messages in order and ends at the first panic. */
  function Run(m: Machine, msgs: seq<Message>, serverKey: string): (r: (Machine, seq<Outcome>))
    ensures |r.1| <= |msgs|
    decreases |msgs|
  {
    if msgs == [] then (m, [])
    else
      var h := Process(m, msgs[0], serverKey);
      if h.1.Panicked? then (h.0, [h.1])
      else
        var rest := Run(h.0, msgs[1..], serverKey);
        (rest.0, [h.1] + rest.1)
  }

  /**
   * The loop handles every message, in order, until the first panic: outcome i belongs to message i,
   * it is Dropped exactly when message i fails the gate, and only a last outcome can be a panic,
   * which is the only way the run ends before the messages do.
   */
  lemma {:induction false} RunOutcomes(m: Machine, msgs: seq<Message>, serverKey: string)
    ensures var outs := Run(m, msgs, serverKey).1;
      (forall i :: 0 <= i < |outs| ==> (outs[i].Dropped? <==> Gate(msgs[i].req, serverKey).None?)) &&
      (forall i :: 0 <= i < |outs| - 1 ==> !outs[i].Panicked?) &&
      (|outs| == |msgs| || (outs != [] && outs[|outs| - 1].Panicked?))
    decreases |msgs|
  {
    if msgs != [] {
      var h := Process(m, msgs[0], serverKey);
      if !h.1.Panicked? {
        RunOutcomes(h.0, msgs[1..], serverKey);
        var rest := Run(h.0, msgs[1..], serverKey).1;
        assert Run(m, msgs, serverKey).1 == [h.1] + rest;
        assert forall i :: 0 < i <= |rest| ==> ([h.1] + rest)[i] == rest[i - 1] && msgs[i] == msgs[1..][i - 1];
      }
    }
  }

  /** Instants that are positive and never move back, starting from `clock`. */
  predicate ClockRuns(msgs: seq<Message>, clock: int)
    decreases |msgs|
  {
    msgs == [] || (0 < msgs[0].now && clock <= msgs[0].now && ClockRuns(msgs[1..], msgs[0].now))
  }

  /** The clock after a run of messages. */
  function LastNow(msgs: seq<Message>, clock: int): int {
    if msgs == [] then clock else msgs[|msgs| - 1].now
  }

  /** A message run keeps the run/pause invariant, the display name and the field layout. */
  lemma {:induction false} RunKeepsInvariants(m: Machine, msgs: seq<Message>, serverKey: string)
    requires Consistent(m.session)
    ensures var r := Run(m, msgs, serverKey);
      Consistent(r.0.session) && r.0.name == m.name && SameLayout(r.0.fields, m.fields)
    decreases |msgs|
  {
    if msgs != [] {
      var h := Process(m, msgs[0], serverKey);
      if !h.1.Panicked? {
        RunKeepsInvariants(h.0, msgs[1..], serverKey);
        SameLayoutTransitive(Run(h.0, msgs[1..], serverKey).0.fields, h.0.fields, m.fields);
      }
    }
  }

  /**
   * From start-up, any sequence of messages leaves the session with paused implying running,
   * and stopped implying both instants clear, and the fields with the configured ids, names and
   * types in configuration order.
   */
  lemma RunFromStartup(name: string, cfg: seq<FieldSpec>, fields: seq<StateField>, msgs: seq<Message>, serverKey: string)
    requires |fields| == |cfg| && forall i :: 0 <= i < |cfg| ==> fields[i] == DefaultField(cfg[i])
    ensures var s := Run(Initial(name, fields), msgs, serverKey).0.session;
      (s.pausedAt != 0 ==> s.running) && (!s.running ==> s.startTime == 0 && s.pausedAt == 0)
    ensures var f := Run(Initial(name, fields), msgs, serverKey).0.fields;
      |f| == |cfg| && forall i :: 0 <= i < |cfg| ==> f[i].id == cfg[i].id && f[i].name == cfg[i].name && f[i].kind == cfg[i].kind
  {
    RunKeepsInvariants(Initial(name, fields), msgs, serverKey);
  }

  /** The clocked invariant only weakens as the clock moves forward. */
  lemma TimedLater(s: Session, c: int, c': int)
    requires Timed(s, c) && c <= c'
    ensures Timed(s, c')
  {
  }

  lemma {:induction false} ClockRunsBound(msgs: seq<Message>, clock: int)
    requires ClockRuns(msgs, clock)
    ensures clock <= LastNow(msgs, clock)
    decreases |msgs|
  {
    if |msgs| > 1 {
      ClockRunsBound(msgs[1..], msgs[0].now);
      assert LastNow(msgs[1..], msgs[0].now) == LastNow(msgs, clock);
    }
  }

  /** One message at a positive, non-decreasing instant keeps the clocked invariant. */
  lemma ProcessKeepsTimed(m: Machine, msg: Message, serverKey: string, clock: int)
    requires Timed(m.session, clock) && 0 < msg.now && clock <= msg.now
    ensures Timed(Process(m, msg, serverKey).0.session, msg.now)
  {
  }

  /**
   * With a clock that is positive and never moves back, every response of a run reports a start time
   * exactly when it reports running, and reports paused only while running.
   */
  lemma {:induction false} RunResponsesCoherent(m: Machine, msgs: seq<Message>, serverKey: string, clock: int)
    requires Timed(m.session, clock) && ClockRuns(msgs, clock)
    ensures var r := Run(m, msgs, serverKey);
      Timed(r.0.session, LastNow(msgs, clock)) &&
      forall i :: 0 <= i < |r.1| && r.1[i].Responded? ==>
        (r.1[i].response.hasStartTime <==> r.1[i].response.running) &&
        (r.1[i].response.paused ==> r.1[i].response.running)
    decreases |msgs|
  {
    if msgs != [] {
      var h := Process(m, msgs[0], serverKey);
      ProcessKeepsTimed(m, msgs[0], serverKey, clock);
      if h.1.Responded? {
        SnapshotOfTimed(h.0.session, msgs[0].now, h.0.name, h.0.fields);
      }
      if h.1.Panicked? {
        ClockRunsBound(msgs, clock);
        ClockRunsBound(msgs[1..], msgs[0].now);
        assert msgs[0].now <= LastNow(msgs, clock) by {
          if |msgs| > 1 { assert LastNow(msgs[1..], msgs[0].now) == LastNow(msgs, clock); }
        }
        TimedLater(h.0.session, msgs[0].now, LastNow(msgs, clock));
      } else {
        RunResponsesCoherent(h.0, msgs[1..], serverKey, msgs[0].now);
        assert LastNow(msgs[1..], msgs[0].now) == LastNow(msgs, clock);
        var rest := Run(h.0, msgs[1..], serverKey);
        assert Run(m, msgs, serverKey).1 == [h.1] + rest.1;
        forall i | 0 <= i < |rest.1| + 1
          ensures ([h.1] + rest.1)[i] == if i == 0 then h.1 else rest.1[i - 1]
        {
        }
      }
    }
  }

  /** The global `state` of the server, updated in place by the handler. */
  class State {
    var running: bool
    var startTime: int
    var pausedAt: int
    var fields: array<StateField>
    var test: string
    var name: string
    ghost var hooks: seq<Hook>
    /** The operations on the state mutex so far, under the corrected discipline of `LockOps`. */
    ghost var mutex: seq<LockOp>

    /** The dispatcher's part of the state. */
    function SessionOf(): Session
      reads this
    {
      Session(running, startTime, pausedAt, test)
    }

    /** The whole state as a value. */
    ghost function Model(): Machine
      reads this, fields
    {
      Machine(SessionOf(), fields[..], name, hooks)
    }

    /** Start-up in `main`: the display name, the fields built from the configuration, and test "001". */
    constructor (name: string, cfg: seq<FieldSpec>)
      ensures SessionOf() == Session(false, 0, 0, "001") && this.name == name && hooks == []
      ensures fresh(fields)
      ensures fields.Length == |cfg| && forall i :: 0 <= i < |cfg| ==> fields[i] == DefaultField(cfg[i])
      ensures Model() == Initial(name, fields[..]) && mutex == []
    {
      var built := BuildFields(cfg);
      running, startTime, pausedAt := false, 0, 0;
      fields := built;
      test := "001";
      this.name := name;
      hooks := [];
      mutex := [];
    }

    /** The action `switch`, with the clock read as `now`. */
    method Apply(action: string, req: Request, now: int)
      modifies this
      ensures SessionOf() == Dispatch(old(SessionOf()), action, req, now).session
      ensures hooks == old(hooks) + Dispatch(old(SessionOf()), action, req, now).hooks
      ensures fields == old(fields) && name == old(name) && mutex == old(mutex)
    {
      if action == "start" {
        if !running {
          running := true;
          startTime := now;
          pausedAt := 0;
          hooks := hooks + [HardwareStart];
        } else if pausedAt != 0 {
          startTime := startTime + (now - pausedAt);
          pausedAt := 0;
          hooks := hooks + [HardwareUnpause];
        }
      } else if action == "pause" {
        if running && pausedAt == 0 {
          pausedAt := now;
          hooks := hooks + [HardwarePause];
        }
      } else if action == "stop" {
        if running {
          running := false;
          startTime := 0;
          pausedAt := 0;
          hooks := hooks + [HardwareStop];
        }
      } else if action == "changeTest" {
        if req.test.Str? && req.test.s != "" {
          test := req.test.s;
        }
      } else if action == "command" {
        if req.command.Str? && req.command.s != "" {
          hooks := hooks + [HardwareCommand(req.command.s)];
        }
      }
    }

    /** `hardwareUpdateFields`: overwrite fields 0, 1 and 2 in place; `completed` is false where Go panics. */
    method UpdateFields(reading: Reading) returns (completed: bool)
      modifies fields
      ensures fields[..] == Refreshed(old(fields[..]), IsActive(SessionOf()), reading)
      ensures completed == RefreshCompletes(old(fields[..]))
    {
      var active := running && pausedAt == 0;
      ghost var before := fields[..];
      var v0, v1, v2;
      if active {
        v0, v1, v2 := Real(reading.temperature), Int(reading.rpm), Int(reading.power);
      } else {
        v0, v1, v2 := Real(25.0), Int(0), Int(0);
      }
      if fields.Length < 1 {
        return false;
      }
      fields[0] := fields[0].(value := v0);
      if fields.Length < 2 {
        assert fields[..] == Refreshed(before, active, reading);
        return false;
      }
      fields[1] := fields[1].(value := v1);
      if fields.Length < 3 {
        assert fields[..] == Refreshed(before, active, reading);
        return false;
      }
      fields[2] := fields[2].(value := v2);
      assert fields[..] == Refreshed(before, active, reading);
      return true;
    }

    /** One pass of the handler's loop body on the global state. */
    method HandleMessage(msg: Message, serverKey: string) returns (out: Outcome)
      modifies this, fields
      ensures (Model(), out) == Process(old(Model()), msg, serverKey)
      ensures mutex == old(mutex) + LockOps(msg.req, serverKey, fields.Length)
      ensures fields == old(fields)
    {
      var key := msg.req.key;
      if !key.Str? || key.s != serverKey {
        return Dropped;
      }
      mutex := mutex + [Lock];
      var action := msg.req.action;
      if !action.Str? {
        mutex := mutex + [Unlock];
        assert mutex == old(mutex) + [Lock, Unlock];
        return Dropped;
      }
      Apply(action.s, msg.req, msg.now);
      var completed := UpdateFields(msg.reading);
      mutex := mutex + [Unlock];
      assert mutex == old(mutex) + [Lock, Unlock];
      if !completed {
        return Panicked;
      }
      out := Responded(Snapshot(SessionOf(), name, fields[..]));
    }

    /** The read loop of one connection over a sequence of messages. */
    method Serve(msgs: seq<Message>, serverKey: string) returns (outs: seq<Outcome>)
      requires Balanced(mutex)
      modifies this, fields
      ensures (Model(), outs) == Run(old(Model()), msgs, serverKey)
      ensures Balanced(mutex)
      ensures fields == old(fields)
    {
      outs := [];
      var i := 0;
      assert msgs[i..] == msgs && Model() == old(Model());
      ghost var whole := Run(old(Model()), msgs, serverKey);
      assert outs + whole.1 == whole.1 && (whole.0, whole.1) == whole;
      while i < |msgs|
        invariant 0 <= i <= |msgs|
        invariant fields == old(fields) && Balanced(mutex)
        invariant var rest := Run(Model(), msgs[i..], serverKey);
          (rest.0, outs + rest.1) == Run(old(Model()), msgs, serverKey)
        decreases |msgs| - i
      {
        ghost var before := Model();
        assert msgs[i..][0] == msgs[i] && msgs[i..][1..] == msgs[i + 1..];
        ghost var held := mutex;
        var out := HandleMessage(msgs[i], serverKey);
        BalancedAppend(held, LockOps(msgs[i].req, serverKey, fields.Length));
        outs := outs + [out];
        if out.Panicked? {
          assert Run(before, msgs[i..], serverKey) == (Model(), [out]);
          return;
        }
        i := i + 1;
        assert outs + Run(Model(), msgs[i..], serverKey).1
            == (outs[..|outs| - 1]) + ([out] + Run(Model(), msgs[i..], serverKey).1);
      }
      assert msgs[i..] == [] && outs + [] == outs;
    }
  }
}
