# Remote test controller: the test-session state machine

This project models the back end of a remote test rig controller (`Back/main.go`). Clients send
JSON commands over a WebSocket. The server holds one global test session. For each message it
does four things in order:

1. It checks the shared key and the action type.
2. It applies the action (`start`, `pause`, `stop`, `status`, `ping`, `changeTest`, `command`, or an unknown one) to the session's run flag, start instant, pause instant and test name. It also calls the matching hardware hook.
3. It refreshes the telemetry fields.
4. It replies with a snapshot of the state.

Layout:

- `fields.dfy` (module `Fields`): the configured fields and the state fields. A value is a tagged union: `Text`, `Int`, `Real` or `Null`. This file also has the per-type default value and the loop in `main` that builds the field list by index.
- `messages.dfy` (module `Messages`): a request as it arrives after JSON decoding. Each key it looks up may be absent, a string, or some other type. This file has the gate on `key` and `action`, and the mutex operations of one message, both as written and as corrected.
- `lifecycle.dfy` (module `Lifecycle`): the action dispatcher as a pure function `Dispatch`. The file also covers the run/pause invariant, the elapsed-time algebra across pause and resume, the effective transitions, the guarded no-ops, and the response snapshot.
- `telemetry.dfy` (module `Telemetry`): `hardwareUpdateFields`. It has an idle branch and an active branch, and it panics when fewer than three fields exist.
- `server.dfy` (module `Server`): the whole message cycle as a function `Process`, and one connection's read loop as `Run`. It also holds the class `State`, the global `state` that these methods update in place: `Apply` is the `switch`, `UpdateFields` the field refresh, `HandleMessage` the loop body and `Serve` the loop. Each method is proved equal to its specification function. The lemmas about `Run` prove the invariants over any sequence of messages.

Modelling choices:

- An instant is an integer, and 0 stands for Go's zero `time.Time`. The clock is a parameter: each message carries the `now` the handler would read.
- The instrument values of the active refresh branch are a `Reading` parameter.
- Hardware hooks only log. They are recorded as a ghost trace of `Hook` values.
- The model is sequential. A ghost trace of mutex operations records the lock discipline (see Findings).

Notes on behaviour:

- `stop` does not reset the fields to their defaults. Only the refresh that follows rewrites fields 0 to 2, with the idle values 25.0 / 0 / 0.
- `stop` while stopped is a no-op.
- There is one global session, not a registry keyed by test id. The test name changes only through `changeTest`.

## Model

| member | source | states |
|---|---|---|
| Fields.DefaultValue | Back/main.go:271-280 | the default conforms to the type tag and is that shape's zero: "" for string, 0 for int, 0.0 for float, null exactly for any other tag (total, never fails) |
| Fields.DefaultValueUnique | Back/main.go:271-280 | that default is the only value that both conforms to the tag and is zero |
| Fields.DefaultField | Back/main.go:273-279 | the state field copies id, name and type of the configured field and holds the type's zero value |
| Fields.BuildFields | Back/main.go:269-281 | the built list is a new array of the configured length, and entry i is the default field of configured field i (same order) |
| Messages.Gate | Back/main.go:82-96 | a message is dispatched iff its key is a string equal to the server key and its action is a string; the dispatched action is that string |
| Messages.GateDrops | Back/main.go:82-96 | a non-string key, a wrong key or a non-string action each drop the message |
| Messages.LockOpsAsWritten | Back/main.go:87-96 | the mutex is locked exactly when the key passes; the trace is exactly a lone lock, and so unbalanced, iff the key passes and the action is not a string or fewer than three fields exist |
| Messages.ActionTypeLeaksLock | Back/main.go:91-95 | every message with the right key and a non-string action, for any field count, leaves only the lock: the mutex stays held |
| Messages.RefreshPanicLeaksLock | Back/main.go:210-218 | with fewer than three fields, every accepted message leaves only the lock: the mutex stays held |
| Messages.LockOps | Back/main.go:91-96 | corrected discipline: every lock is released, on every path after the key check |
| Lifecycle.Dispatch | Back/main.go:98-154 | every action keeps the run/pause invariant, calls at most one hook, changes the test only for changeTest, and changes run flag and instants only for start/pause/stop |
| Lifecycle.StartupEffect | Back/main.go:100-105 | start while stopped sets running, start instant = now, clears the pause instant, and calls exactly the start hook |
| Lifecycle.ResumeKeepsElapsed | Back/main.go:106-111 | start while paused moves the start instant forward by the pause length, clears the pause instant, calls the unpause hook; now − new start = pause instant − old start |
| Lifecycle.PauseFreezesElapsed | Back/main.go:113-118 | pause while active sets the pause instant to now, calls the pause hook, and elapsed time stays at its value at the pause |
| Lifecycle.StopEffect | Back/main.go:119-126 | stop while running clears run flag and both instants and calls exactly the stop hook |
| Lifecycle.ElapsedAdvances | Back/main.go:106-111 | while running unpaused, elapsed time advances one for one with the clock |
| Lifecycle.ElapsedBounded | Back/main.go:106-111 | under a forward-moving positive clock, elapsed time is never negative and never exceeds the time since the start instant |
| Lifecycle.HookIffChange | Back/main.go:99-126 | for start, pause and stop at a nonzero instant, a hook is called iff the session changes |
| Lifecycle.GuardedNoOps | Back/main.go:99-126 | start while running unpaused, pause while stopped or paused, stop while stopped: no change and no hook |
| Lifecycle.PassiveActions | Back/main.go:127-153 | status, ping and unknown actions: no change and no hook |
| Lifecycle.CommandForwards | Back/main.go:142-150 | command never changes the session and forwards its payload to the hardware iff it is a non-empty string |
| Lifecycle.ChangeTestOnlyTest | Back/main.go:131-141 | changeTest calls no hook and changes only the test name, only to a non-empty string |
| Lifecycle.DispatchKeepsTimed | Back/main.go:98-126 | any action at a positive instant not before the clock keeps running ⇒ 0 < start ≤ pause ≤ clock |
| Lifecycle.PauseResumeScenario | Back/main.go:99-117 | start at t0, pause at t0+5, resume at t0+15: the start instant is t0+10 and at t0+20 the elapsed time is 10 |
| Lifecycle.Snapshot | Back/main.go:168-177 | the response copies running, name, test and fields; paused is exactly "the pause instant is set" and startTime is present exactly when the start instant is set; for a consistent state, paused implies running and a stopped response carries no start time |
| Lifecycle.SnapshotOfTimed | Back/main.go:168-177 | under the clocked invariant, startTime is sent iff running, and paused iff the pause instant is set |
| Telemetry.Refreshed | Back/main.go:210-219 | the refresh keeps ids, names, types, order and length, and leaves every field from index 3 on unchanged |
| Telemetry.IdleRefresh | Back/main.go:215-219 | stopped or paused with at least three fields: fields 0..2 become 25.0 / 0 / 0 |
| Telemetry.ActiveRefresh | Back/main.go:211-214 | running unpaused with at least three fields: fields 0..2 take the instrument reading |
| Server.Initial | Back/main.go:282-284 | the start-up state (stopped, test "001") satisfies the clocked invariant |
| Server.Process | Back/main.go:82-177 | a message is dropped (no response, no change) iff it fails the gate; it panics iff it passes the gate with fewer than three fields; a response is the snapshot of the new state; it keeps the invariant, name and field layout; it appends at most one hook |
| Server.Run | Back/main.go:68-186 | one connection yields at most one outcome per message |
| Server.RunOutcomes | Back/main.go:68-186 | the loop handles every message in order until the first panic: outcome i is Dropped iff message i fails the gate, no outcome but the last is a panic, and the run ends early only at a panic |
| Server.RunKeepsInvariants | Back/main.go:68-186 | any message sequence keeps the run/pause invariant, the display name and the field layout |
| Server.RunFromStartup | Back/main.go:98-126 | from start-up, after any sequence of messages: pause instant set ⇒ running, stopped ⇒ both instants clear, and the fields keep the configured ids, names and types in configuration order |
| Server.ProcessKeepsTimed | Back/main.go:98-126 | one message at a positive, non-decreasing instant keeps the clocked invariant |
| Server.RunResponsesCoherent | Back/main.go:168-177 | with a positive non-decreasing clock, every response of a run sends startTime iff running, and paused only while running |
| Server.State.constructor | Back/main.go:269-284 | start-up: stopped, both instants zero, test "001", fields a new array built from the configuration |
| Server.State.Apply | Back/main.go:98-154 | the in-place switch leaves the session and hook trace equal to Dispatch, and keeps the fields and name |
| Server.State.UpdateFields | Back/main.go:210-219 | the in-place refresh leaves the fields equal to Refreshed of the old ones; it completes iff at least three fields exist |
| Server.State.HandleMessage | Back/main.go:82-177 | state and outcome equal Process of the old state; the mutex is locked and released exactly as LockOps says |
| Server.State.Serve | Back/main.go:68-186 | state and outcomes equal Run of the old state; the mutex trace stays balanced |

## Left out

- The WebSocket upgrade, the 1024-byte read limit, the read/write calls, the file server and `ListenAndServe` (Back/main.go:58-69, 183-185, 292-296) are left out. They are network I/O. `Serve` takes the decoded messages as a sequence.
- JSON decoding of requests and encoding of responses (Back/main.go:75-79, 178-182) is left out. A request arrives already decoded, and a response is the `Response` record. Marshal errors are not modelled.
- Config loading and its fallbacks (Back/main.go:224-266) are left out, since they are file I/O and logging. The constructor takes the display name and the field list directly. If loading fails, `cfg` is nil and is dereferenced at line 269, so the process panics at start-up. That path is not part of this model.
- The mutex is not modelled as a blocking primitive. The cycle is sequential. Only a ghost trace of lock and unlock operations is kept, under the corrected discipline.
- Concurrency between connections is left out. So is the response slice sharing its backing array with `state.Fields` after the unlock.
- The active-branch formulas of the field refresh (Back/main.go:212-214) are left out. They read the wall clock and use float arithmetic, so they arrive as `Reading`.
- The RFC 3339 text of `startTime` (Back/main.go:176) is left out. Only whether the key is present is modelled (`hasStartTime`).
- The hardware hooks only log (Back/main.go:189-207). They appear as the ghost `hooks` trace, and log lines are not modelled.
- Lifecycle.ElapsedBounded: assumes a positive clock that never moves back, because `time.Now().UTC()` drops Go's monotonic reading and a wall clock stepping back can break the bound.
- Lifecycle.DispatchKeepsTimed: assumes a positive clock that never moves back, because `time.Now().UTC()` drops Go's monotonic reading and a wall clock stepping back can break the bound.
- Server.RunResponsesCoherent: assumes a positive clock that never moves back, because `time.Now().UTC()` drops Go's monotonic reading and a wall clock stepping back can break the bound.
- Time arithmetic is unbounded. Go's `time.Duration` saturates after about 292 years, and that is not modelled.
- Front/app.js is left out. It is browser UI with no logic of the session.

## Findings

| source | as written | input that shows it | evidently intended | confidence | as-written member | corrected member |
|---|---|---|---|---|---|---|
| Back/main.go:91-95 | the handler locks the state mutex, and after a non-string `action` it goes back to the read loop without unlocking | a message with the right `key` and `"action": 1`; every later message that passes the key check, on any connection, then blocks in `Lock` | release the mutex on every path after locking (a deferred unlock) | high, not executed | Messages.ActionTypeLeaksLock | Messages.LockOps |
| Back/main.go:210-218 | the field refresh writes `Fields[0..2]` while the mutex is held; with fewer than three configured fields it panics after the writes that fit, and the mutex is never released | a configuration with two fields, then any accepted message | the refresh adapts to the configured field list, and the mutex is released even when the handler panics | medium, not executed | Messages.RefreshPanicLeaksLock | Messages.LockOps |
