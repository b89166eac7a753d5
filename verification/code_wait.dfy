/**
 * The wait for a pairing code in server.js's `/api/pair` handler: a promise
 * resolved by the registered callback and rejected by a 15-second timer that
 * only rejects when no code was recorded. A promise settles once; later
 * resolve or reject calls are ignored.
 */
module CodeWait {
  import opened Base

  datatype Promise = Waiting | Resolved(code: Option<string>) | Rejected

  /** The handler's `pairingCode` variable (`None` is `null`) and its promise. */
  datatype Wait = Wait(pairingCode: Option<string>, promise: Promise)

  /** The two things that can act on the wait. */
  datatype Signal = CallbackCalled(code: Option<string>) | TimerFired

  function Fresh(): Wait {
    Wait(None, Waiting)
  }

  /** JavaScript truthiness of `pairingCode`: `null` and `""` are falsy. */
  predicate Truthy(v: Option<string>) {
    v.Some? && |v.value| > 0
  }

  /** `resolve` / `reject`: only the first settlement takes effect. */
  function Settle(p: Promise, q: Promise): (r: Promise)
    requires !q.Waiting?
    ensures p.Waiting? ==> r == q
    ensures !p.Waiting? ==> r == p
  {
    if p.Waiting? then q else p
  }

  /** The callback: `pairingCode = code; resolve(code);` */
  function Callback(w: Wait, code: Option<string>): (r: Wait)
    ensures r.pairingCode == code
    ensures r.promise == (if w.promise.Waiting? then Resolved(code) else w.promise)
  {
    Wait(code, Settle(w.promise, Resolved(code)))
  }

  /** The timer: `if (!pairingCode) reject(...)`. */
  function Timeout(w: Wait): (r: Wait)
    ensures r.pairingCode == w.pairingCode
    ensures w.promise.Waiting? && !Truthy(w.pairingCode) ==> r.promise == Rejected
    ensures !w.promise.Waiting? || Truthy(w.pairingCode) ==> r.promise == w.promise
  {
    if Truthy(w.pairingCode) then w else Wait(w.pairingCode, Settle(w.promise, Rejected))
  }

  function Apply(w: Wait, sig: Signal): Wait {
    match sig
    case CallbackCalled(code) => Callback(w, code)
    case TimerFired => Timeout(w)
  }

  function Run(w: Wait, sigs: seq<Signal>): Wait
    decreases |sigs|
  {
    if |sigs| == 0 then w else Run(Apply(w, sigs[0]), sigs[1..])
  }

  /** A recorded code means the promise has already settled. */
  ghost predicate Inv(w: Wait) {
    w.pairingCode.Some? ==> !w.promise.Waiting?
  }

  lemma ApplyPreservesInv(w: Wait, sig: Signal)
    requires Inv(w)
    ensures Inv(Apply(w, sig))
  {
  }

  /** Once the timer has fired the request is no longer waiting, whatever happened before. */
  lemma TimeoutSettles(w: Wait)
    requires Inv(w)
    ensures !Timeout(w).promise.Waiting?
  {
  }

  /** A settled wait never changes its outcome again. */
  lemma {:induction false} SettledIsFinal(w: Wait, sigs: seq<Signal>)
    requires !w.promise.Waiting?
    ensures Run(w, sigs).promise == w.promise
    decreases |sigs|
  {
    if |sigs| > 0 {
      SettledIsFinal(Apply(w, sigs[0]), sigs[1..]);
    }
  }

  /** The outcome the first signal brings about. */
  function FirstOutcome(sig: Signal): Promise {
    match sig
    case CallbackCalled(code) => Resolved(code)
    case TimerFired => Rejected
  }

  /**
   * The race settles exactly once and the first signal decides it: the first
   * callback (even with `null`) resolves, a timer that fires first rejects.
   */
  lemma FirstSignalDecides(sigs: seq<Signal>)
    ensures |sigs| == 0 ==> Run(Fresh(), sigs).promise == Waiting
    ensures |sigs| > 0 ==> Run(Fresh(), sigs).promise == FirstOutcome(sigs[0])
  {
    if |sigs| > 0 {
      SettledIsFinal(Apply(Fresh(), sigs[0]), sigs[1..]);
    }
  }
}
