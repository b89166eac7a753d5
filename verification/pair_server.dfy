/**
 * The pairing front-end of server.js: the `/api/pair` handler with its
 * pending-session map and code wait, the status lookup of
 * `GET /api/session/:sessionId`, and the sweep of expired pending entries.
 * The session module it drives (`startBotSession`, `isSessionActive`,
 * `deleteSession`) is outside the model: its answers are inputs here.
 */
module PairServer {
  import opened Base
  import Phone
  import SessionIds
  import CodeWait

  /** Pending entries older than ten minutes are swept. */
  const PENDING_TTL_MS: int := 600000

  type SessionId = string

  datatype PendingStatus = GeneratingCode | AwaitingLink(code: Option<string>)

  /** A value of `pendingSessions`. */
  datatype PendingEntry = PendingEntry(phoneNumber: string, status: PendingStatus, timestamp: int)

  /** A `/api/pair` request still inside its handler: the cleaned number and its code wait. */
  datatype Request = Request(phoneNumber: string, wait: CodeWait.Wait)

  datatype State = State(
    pending: map<SessionId, PendingEntry>,
    callbacks: set<SessionId>,             // the keys of `global.pairingCallbacks`
    requests: map<SessionId, Request>)

  datatype Reply =
    | Invalid(why: Phone.Rejection)                                      // 400, or 500 for a non-string number
    | Paired(sessionId: SessionId, phoneNumber: string, code: Option<string>)  // 200
    | CodeFailed                                                         // 500 'Failed to generate pairing code'

  datatype PairOutcome = Answered(reply: Reply) | Awaiting(sessionId: SessionId, phoneNumber: string)

  datatype StatusReply =
    | ReportConnected(sessionId: SessionId)
    | ReportPending(sessionId: SessionId, entry: PendingEntry)
    | NotFound                                                            // 404 'Session not found'

  /** A callback is registered exactly for the requests still waiting, and every wait is consistent. */
  ghost predicate Inv(s: State) {
    && (forall id :: id in s.callbacks ==> id in s.requests)
    && (forall id :: id in s.requests ==>
          && CodeWait.Inv(s.requests[id].wait)
          && (s.requests[id].wait.promise.Waiting? <==> id in s.callbacks))
  }

  function Init(): (s: State)
    ensures Inv(s)
    ensures s.pending == map[] && s.callbacks == {} && s.requests == map[]
  {
    State(map[], {}, map[])
  }

  /**
   * `POST /api/pair` up to the point where it awaits the code: a refused
   * number is answered at once and changes nothing; otherwise a pending entry
   * is stored, a callback registered and the wait started.
   */
  function Pair(s: State, body: Phone.BodyField, now: nat): (r: (State, PairOutcome))
    ensures Phone.Validate(body).Err? ==> r == (s, Answered(Invalid(Phone.Validate(body).error)))
    ensures Phone.Validate(body).Ok? ==>
      var clean := Phone.Validate(body).value;
      var id := SessionIds.SessionIdOf(clean, now);
      && r.1 == Awaiting(id, clean)
      && r.0.pending == s.pending[id := PendingEntry(clean, GeneratingCode, now)]
      && r.0.callbacks == s.callbacks + {id}
      && r.0.requests == s.requests[id := Request(clean, CodeWait.Fresh())]
  {
    match Phone.Validate(body)
    case Err(why) => (s, Answered(Invalid(why)))
    case Ok(clean) =>
      var id := SessionIds.SessionIdOf(clean, now);
      (State(s.pending[id := PendingEntry(clean, GeneratingCode, now)],
             s.callbacks + {id},
             s.requests[id := Request(clean, CodeWait.Fresh())]),
       Awaiting(id, clean))
  }

  /** `startBotSession(...).catch(...)`: a failed start drops the pending entry only. */
  function StartFails(s: State, id: SessionId): (r: State)
    ensures r.pending == s.pending - {id}
    ensures r.callbacks == s.callbacks && r.requests == s.requests
  {
    s.(pending := s.pending - {id})
  }

  /**
   * The session module calls the registered callback. On a waiting request
   * this settles the wait and the handler goes on: the entry becomes
   * `awaiting_link` with the code (even `null`) and a new timestamp, the
   * callback is removed, and the code is sent.
   */
  function CodeArrives(s: State, id: SessionId, code: Option<string>, now: int): (r: (State, Option<Reply>))
    ensures id !in s.callbacks ==> r == (s, None)
    ensures id in s.callbacks && id in s.requests && s.requests[id].wait.promise.Waiting? ==>
      var phone := s.requests[id].phoneNumber;
      && r.1 == Some(Paired(id, phone, code))
      && r.0.pending == s.pending[id := PendingEntry(phone, AwaitingLink(code), now)]
      && r.0.callbacks == s.callbacks - {id}
      && r.0.requests.Keys == s.requests.Keys
      && r.0.requests[id].wait.promise == CodeWait.Resolved(code)
    ensures id in s.requests && !s.requests[id].wait.promise.Waiting? ==> r.1 == None && r.0.pending == s.pending
  {
    if id !in s.callbacks || id !in s.requests then (s, None)
    else
      var req := s.requests[id];
      var w := CodeWait.Callback(req.wait, code);
      if req.wait.promise.Waiting? then
        (State(s.pending[id := PendingEntry(req.phoneNumber, AwaitingLink(code), now)],
               s.callbacks - {id},
               s.requests[id := req.(wait := w)]),
         Some(Paired(id, req.phoneNumber, code)))
      else (s.(requests := s.requests[id := req.(wait := w)]), None)
  }

  /**
   * The 15-second timer. It rejects only a wait with no code recorded; the
   * handler then drops the pending entry and the callback and answers 500.
   */
  function CodeTimesOut(s: State, id: SessionId): (r: (State, Option<Reply>))
    ensures id !in s.requests ==> r == (s, None)
    ensures id in s.requests && s.requests[id].wait == CodeWait.Fresh() ==>
      && r.1 == Some(CodeFailed)
      && r.0.pending == s.pending - {id}
      && r.0.callbacks == s.callbacks - {id}
      && r.0.requests.Keys == s.requests.Keys
      && r.0.requests[id].wait.promise == CodeWait.Rejected
    ensures id in s.requests && !s.requests[id].wait.promise.Waiting? ==> r == (s, None)
  {
    if id !in s.requests then (s, None)
    else
      var req := s.requests[id];
      var w := CodeWait.Timeout(req.wait);
      if req.wait.promise.Waiting? && w.promise.Rejected? then
        (State(s.pending - {id}, s.callbacks - {id}, s.requests[id := req.(wait := w)]), Some(CodeFailed))
      else
        assert !req.wait.promise.Waiting? ==> s.requests[id := req.(wait := w)] == s.requests;
        (s.(requests := s.requests[id := req.(wait := w)]), None)
  }

  /** `GET /api/session/:sessionId`: a live session first, then a pending one, else 404. */
  function Lookup(s: State, id: SessionId, isActive: bool): (r: StatusReply)
    ensures r.ReportConnected? <==> isActive
    ensures r.ReportPending? <==> !isActive && id in s.pending
    ensures r.ReportPending? ==> r.entry == s.pending[id]
    ensures !r.NotFound? ==> r.sessionId == id
  {
    if isActive then ReportConnected(id)
    else if id in s.pending then ReportPending(id, s.pending[id])
    else NotFound
  }

  /** `now - data.timestamp > timeout` */
  predicate Expired(e: PendingEntry, now: int) {
    now - e.timestamp > PENDING_TTL_MS
  }

  /**
   * The five-minute sweep: removes exactly the expired pending entries and
   * asks the session module to delete those that are not live.
   */
  function Sweep(s: State, now: int, live: set<SessionId>): (r: (State, set<SessionId>))
    ensures forall id :: id in r.0.pending <==> id in s.pending && !Expired(s.pending[id], now)
    ensures forall id :: id in r.0.pending ==> r.0.pending[id] == s.pending[id]
    ensures forall id :: id in r.1 <==> id in s.pending && Expired(s.pending[id], now) && id !in live
    ensures r.0.callbacks == s.callbacks && r.0.requests == s.requests
  {
    (s.(pending := map id | id in s.pending && !Expired(s.pending[id], now) :: s.pending[id]),
     set id | id in s.pending && Expired(s.pending[id], now) && id !in live)
  }

  lemma PairPreservesInv(s: State, body: Phone.BodyField, now: nat)
    requires Inv(s)
    ensures Inv(Pair(s, body, now).0)
  {
  }

  lemma CodeArrivesPreservesInv(s: State, id: SessionId, code: Option<string>, now: int)
    requires Inv(s)
    ensures Inv(CodeArrives(s, id, code, now).0)
  {
  }

  lemma CodeTimesOutPreservesInv(s: State, id: SessionId)
    requires Inv(s)
    ensures Inv(CodeTimesOut(s, id).0)
  {
  }

  /**
   * Each request is answered once: when its wait has settled, neither a later
   * callback nor the timer produces another reply, and the timer always
   * leaves the wait settled.
   */
  lemma SettledRequestIsSilent(s: State, id: SessionId, code: Option<string>, now: int)
    requires Inv(s) && id in s.requests && !s.requests[id].wait.promise.Waiting?
    ensures CodeArrives(s, id, code, now).1 == None
    ensures CodeTimesOut(s, id).1 == None
  {
  }

  lemma TimerSettlesRequest(s: State, id: SessionId)
    requires Inv(s) && id in s.requests
    ensures var t := CodeTimesOut(s, id).0;
      id in t.requests && !t.requests[id].wait.promise.Waiting? && id !in t.callbacks
  {
    CodeWait.TimeoutSettles(s.requests[id].wait);
  }

  /**
   * A valid request whose code arrives in time is answered with the id
   * `session_<digits>_<time>` and the code, and its status then reads
   * `awaiting_link` with that code.
   */
  lemma PairThenCode(s: State, raw: string, now: nat, code: Option<string>, later: int)
    requires Inv(s) && |Phone.Clean(raw)| >= Phone.MIN_DIGITS
    ensures var (s1, o) := Pair(s, Phone.Text(raw), now);
      var clean := Phone.Clean(raw);
      var id := SessionIds.SessionIdOf(clean, now);
      var (s2, reply) := CodeArrives(s1, id, code, later);
      && o == Awaiting(id, clean)
      && reply == Some(Paired(id, clean, code))
      && Lookup(s2, id, false) == ReportPending(id, PendingEntry(clean, AwaitingLink(code), later))
  {
  }

  /** A request whose timer fires first is answered 500 and then looks unknown unless live. */
  lemma PairThenTimeout(s: State, raw: string, now: nat)
    requires Inv(s) && |Phone.Clean(raw)| >= Phone.MIN_DIGITS
    ensures var (s1, o) := Pair(s, Phone.Text(raw), now);
      var id := SessionIds.SessionIdOf(Phone.Clean(raw), now);
      var (s2, reply) := CodeTimesOut(s1, id);
      && reply == Some(CodeFailed)
      && Lookup(s2, id, false) == NotFound
  {
  }

  /**
   * A failed start drops only the pending entry: the wait keeps running, so
   * the status reads 404 at once and the timer still answers 500.
   */
  lemma PairThenStartFails(s: State, raw: string, now: nat)
    requires Inv(s) && |Phone.Clean(raw)| >= Phone.MIN_DIGITS
    ensures var (s1, o) := Pair(s, Phone.Text(raw), now);
      var id := SessionIds.SessionIdOf(Phone.Clean(raw), now);
      var s2 := StartFails(s1, id);
      && Inv(s2) && id in s2.callbacks
      && Lookup(s2, id, false) == NotFound
      && CodeTimesOut(s2, id).1 == Some(CodeFailed)
  {
  }

  /** A refused number leaves no pending entry and registers no callback. */
  lemma RefusedPairChangesNothing(s: State, body: Phone.BodyField, now: nat)
    requires Phone.Validate(body).Err?
    ensures Pair(s, body, now).0 == s
  {
  }

  /** Sweeping twice at the same moment removes nothing more. */
  lemma SweepIdempotent(s: State, now: int, live: set<SessionId>)
    ensures Sweep(Sweep(s, now, live).0, now, live).0 == Sweep(s, now, live).0
  {
  }
}
