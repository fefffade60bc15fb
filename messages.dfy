/** Inbound messages after JSON decoding, and the request gate in front of the dispatcher. */
module Messages {

  datatype Option<T> = None | Some(value: T)

  /** What a key of the decoded JSON object holds, as far as a Go `.(string)` assertion can tell. */
  datatype Dyn = Absent | Str(s: string) | NonString

  /** A decoded request: the four keys the handler looks up. */
  datatype Request = Request(key: Dyn, action: Dyn, test: Dyn, command: Dyn)

  /** The action a message carries, when it passes the checks on `key` and `action`; None means dropped. */
  function Gate(req: Request, serverKey: string): (r: Option<string>)
    ensures r.Some? <==> req.key == Str(serverKey) && req.action.Str?
    ensures r.Some? ==> r.value == req.action.s
  {
    if !req.key.Str? then None
    else if req.key.s != serverKey then None
    else if !req.action.Str? then None
    else Some(req.action.s)
  }

  /** Each of the three ways a message fails the gate drops it. */
  lemma GateDrops(req: Request, serverKey: string)
    requires !req.key.Str? || req.key.s != serverKey || !req.action.Str?
    ensures Gate(req, serverKey) == None
  {
  }

  /** Operations on the handler's state mutex during one message. */
  datatype LockOp = Lock | Unlock

  /** The mutex is left free: locks and unlocks alternate, starting with a lock, and end with an unlock. */
  predicate Balanced(ops: seq<LockOp>) {
    |ops| % 2 == 0 && forall i :: 0 <= i < |ops| ==> ops[i] == (if i % 2 == 0 then Lock else Unlock)
  }

  /**
   * The mutex operations of one message as the handler is written: it locks after the key check,
   * returns to the read loop after a non-string action without unlocking, and panics while locked
   * once the field refresh indexes past a field list shorter than three.
   */
  function LockOpsAsWritten(req: Request, serverKey: string, fieldCount: nat): (ops: seq<LockOp>)
    ensures ops != [] <==> req.key == Str(serverKey)
    ensures ops == [Lock] <==> req.key == Str(serverKey) && (!req.action.Str? || fieldCount < 3)
    ensures Balanced(ops) <==> !(ops == [Lock])
  {
    if !req.key.Str? || req.key.s != serverKey then []
    else if !req.action.Str? then [Lock]
    else if fieldCount < 3 then [Lock]
    else [Lock, Unlock]
  }

  /** A message with a string key equal to the server key and a non-string action leaves the mutex held. */
  lemma ActionTypeLeaksLock(req: Request, serverKey: string, fieldCount: nat)
    requires req.key == Str(serverKey) && !req.action.Str?
    ensures LockOpsAsWritten(req, serverKey, fieldCount) == [Lock]
    ensures !Balanced(LockOpsAsWritten(req, serverKey, fieldCount))
  {
  }

  /** With fewer than three configured fields, every accepted message leaves the mutex held. */
  lemma RefreshPanicLeaksLock(req: Request, serverKey: string, fieldCount: nat)
    requires Gate(req, serverKey).Some? && fieldCount < 3
    ensures LockOpsAsWritten(req, serverKey, fieldCount) == [Lock]
    ensures !Balanced(LockOpsAsWritten(req, serverKey, fieldCount))
  {
  }

  /** One balanced stretch after another is balanced. */
  lemma BalancedAppend(a: seq<LockOp>, b: seq<LockOp>)
    requires Balanced(a) && Balanced(b)
    ensures Balanced(a + b)
  {
  }

  /** The mutex operations with the unlock deferred right after the lock, so that every exit releases it. */
  function LockOps(req: Request, serverKey: string, fieldCount: nat): (ops: seq<LockOp>)
    ensures Balanced(ops)
    ensures ops != [] <==> req.key == Str(serverKey)
  {
    if !req.key.Str? || req.key.s != serverKey then [] else [Lock, Unlock]
  }
}
