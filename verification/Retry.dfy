/** The activation retry around stateful D-Bus calls. */
module Retry {
  import opened Text

  datatype BusError =
    | ServiceUnknown
    | SpawnChildExited
    | UnknownObject
    | UnknownMethod(message: string)
    | NoReply
    | Timeout
    | Disconnected
    | OtherError(message: string)

  datatype Reply<T> = Good(value: T) | Bad(error: BusError)

  datatype Verdict<T> = Returned(value: T) | Gave(error: BusError) | NothingTried

  /** Errors the bus itself raises before the call reaches its receiver. */
  predicate IsPreDispatchTransient(e: BusError) {
    match e
    case ServiceUnknown => true
    case SpawnChildExited => true
    case UnknownObject => true
    case UnknownMethod(message) => HasPart(message, "Object does not exist at path")
    case _ => false
  }

  predicate Transient<T>(r: Reply<T>) { r.Bad? && IsPreDispatchTransient(r.error) }

  function Pass<T>(r: Reply<T>): Verdict<T> {
    match r
    case Good(v) => Returned(v)
    case Bad(e) => Gave(e)
  }

  /** The number of calls: up to and including the first that is not transient, within the attempts. */
  function Calls<T>(op: nat -> Reply<T>, i: nat, attempts: nat): (n: nat)
    requires i < attempts
    ensures i < n <= attempts
    ensures forall k :: i <= k < n - 1 ==> Transient(op(k))
    ensures n < attempts ==> !Transient(op(n - 1))
    decreases attempts - i
  {
    if Transient(op(i)) && i + 1 < attempts then Calls(op, i + 1, attempts) else i + 1
  }

  /** `op(k)` is what the call number `k` answers. */
  method WithActivationRetry<T>(attempts: nat, op: nat -> Reply<T>)
    returns (r: Verdict<T>, calls: nat, sleeps: nat)
    ensures attempts == 0 ==> r.NothingTried? && calls == 0 && sleeps == 0
    ensures attempts > 0 ==>
              calls == Calls(op, 0, attempts) && sleeps == calls - 1 && r == Pass(op(calls - 1))
  {
    calls, sleeps := 0, 0;
    if attempts == 0 {
      return NothingTried, 0, 0;
    }
    var lastErr := ServiceUnknown;
    for i := 0 to attempts
      invariant calls == i == sleeps || (i == attempts && calls == i == sleeps + 1)
      invariant i > 0 ==> op(i - 1) == Bad(lastErr) && Transient(op(i - 1))
      invariant i < attempts ==> Calls(op, 0, attempts) == Calls(op, i, attempts)
      invariant i == attempts ==> Calls(op, 0, attempts) == attempts && calls == sleeps + 1
    {
      var reply := op(i);
      calls := calls + 1;
      match reply {
        case Good(t) => return Returned(t), calls, sleeps;
        case Bad(e) =>
          if !IsPreDispatchTransient(e) {
            return Gave(e), calls, sleeps;
          }
          lastErr := e;
          if i + 1 < attempts {
            sleeps := sleeps + 1;
          }
      }
    }
    r := Gave(lastErr);
  }

  function Effects(effective: nat -> bool, n: nat): nat {
    if n == 0 then 0 else Effects(effective, n - 1) + if effective(n - 1) then 1 else 0
  }

  lemma {:induction false} NoEffectSoFar(effective: nat -> bool, n: nat)
    requires forall k :: 0 <= k < n ==> !effective(k)
    ensures Effects(effective, n) == 0
  {
    if n > 0 {
      NoEffectSoFar(effective, n - 1);
    }
  }

  /**
    * If an error raised before dispatch has no effect on the receiver, the
    * operation takes effect at most once over all retries, and only in the call
    * whose reply is handed back.
    */
  lemma TakesEffectAtMostOnce<T>(attempts: nat, op: nat -> Reply<T>, effective: nat -> bool)
    requires attempts > 0
    requires forall k :: Transient(op(k)) ==> !effective(k)
    ensures var n := Calls(op, 0, attempts);
            Effects(effective, n) == if effective(n - 1) then 1 else 0
  {
    var n := Calls(op, 0, attempts);
    forall k | 0 <= k < n - 1 ensures !effective(k) {
      assert Transient(op(k));
    }
    NoEffectSoFar(effective, n - 1);
  }

  // ---------- Which errors are retried ----------

  /**
    * Four errors are retried: an unknown service, an activation that failed, an
    * unknown object, and an unknown method whose message says that the object
    * does not exist.  A lost reply, a timeout and a lost connection are not.
    */
  lemma RetriedErrors(e: BusError)
    ensures IsPreDispatchTransient(e) <==>
      || e.ServiceUnknown? || e.SpawnChildExited? || e.UnknownObject?
      || (e.UnknownMethod? && Mentions(e.message, "Object does not exist at path"))
  {
    if e.UnknownMethod? {
      MentionsPart(e.message, "Object does not exist at path");
    }
  }

  /** The call that may have taken effect although its reply was lost is the last one. */
  lemma LostReplyIsFinal<T>(attempts: nat, op: nat -> Reply<T>, k: nat)
    requires attempts > 0 && k < Calls(op, 0, attempts)
    requires op(k).Bad? && (op(k).error.NoReply? || op(k).error.Timeout? || op(k).error.Disconnected?)
    ensures Calls(op, 0, attempts) == k + 1
  {
    assert !Transient(op(k));
  }
}
