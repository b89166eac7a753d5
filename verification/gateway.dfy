/**
 * The admission-controlled gateway of app.js. It keeps its own session map,
 * capped at 50 entries, and starts sessions through the index.js manager;
 * an entry is added only when the start succeeds. Sequential execution is
 * assumed: the cap check and the insertion happen in one step.
 */
module Gateway {
  import opened Base
  import JsMap
  import Phone
  import SessionIds
  import SessionManager

  const MAX_SESSIONS: nat := 50

  type SessionId = string

  /** A value of app.js's `activeSessions` (its `status` is always `active`). */
  datatype AppEntry = AppEntry(phoneNumber: string, session: SessionManager.Socket, createdAt: int)

  datatype State = State(sessions: JsMap.OrderedMap<SessionId, AppEntry>, manager: SessionManager.State)

  datatype Reply =
    | Invalid(why: Phone.Rejection)                         // 400, or 500 for a non-string number
    | LimitReached(limit: nat, current: nat)                // 429
    | Created(sessionId: SessionId, phoneNumber: string)    // 200
    | StartFailed                                           // 500 'Failed to start session'
    | NotFound                                              // 404 'Session not found'
    | Removed                                               // 200 'Session removed successfully'

  /** One row of `GET /api/sessions`. */
  datatype Row = Row(sessionId: SessionId, phoneNumber: string, createdAt: int)

  datatype Listing = Listing(count: nat, limit: nat, rows: seq<Row>)

  ghost predicate Inv(s: State) {
    JsMap.Size(s.sessions) <= MAX_SESSIONS
  }

  /**
   * `POST /api/pair`: a refused number or a full map is answered at once and
   * changes nothing; otherwise the manager starts the session and only a
   * successful start adds an entry.
   */
  function Pair(s: State, body: Phone.BodyField, now: nat, setup: SessionManager.Setup): (r: (State, Reply))
    ensures Phone.Validate(body).Err? ==> r == (s, Invalid(Phone.Validate(body).error))
    ensures Phone.Validate(body).Ok? && JsMap.Size(s.sessions) >= MAX_SESSIONS ==>
      r == (s, LimitReached(MAX_SESSIONS, JsMap.Size(s.sessions)))
    ensures Phone.Validate(body).Ok? && JsMap.Size(s.sessions) < MAX_SESSIONS ==>
      var clean := Phone.Validate(body).value;
      var id := SessionIds.SessionIdOf(clean, now);
      var (m, started) := SessionManager.Start(s.manager, clean, id, now, setup);
      && r.0.manager == m
      && (started.Err? ==> r.1 == StartFailed && r.0.sessions == s.sessions)
      && (started.Ok? ==>
            && r.1 == Created(id, clean)
            && r.0.sessions.entries == s.sessions.entries[id := AppEntry(clean, started.value, now)]
            && JsMap.Size(r.0.sessions) <= JsMap.Size(s.sessions) + 1)
  {
    match Phone.Validate(body)
    case Err(why) => (s, Invalid(why))
    case Ok(clean) =>
      if JsMap.Size(s.sessions) >= MAX_SESSIONS then (s, LimitReached(MAX_SESSIONS, JsMap.Size(s.sessions)))
      else
        var id := SessionIds.SessionIdOf(clean, now);
        var (m, started) := SessionManager.Start(s.manager, clean, id, now, setup);
        match started
        case Err(_) => (s.(manager := m), StartFailed)
        case Ok(sock) => (State(JsMap.Set(s.sessions, id, AppEntry(clean, sock, now)), m), Created(id, clean))
  }

  /** `GET /api/sessions`: one row per entry in insertion order, the count and the limit. */
  function Sessions(s: State): (l: Listing)
    ensures l.count == |s.sessions.entries| == |l.rows|
    ensures l.limit == MAX_SESSIONS
    ensures forall i :: 0 <= i < |l.rows| ==>
      l.rows[i].sessionId in s.sessions.entries
      && l.rows[i].phoneNumber == s.sessions.entries[l.rows[i].sessionId].phoneNumber
      && l.rows[i].createdAt == s.sessions.entries[l.rows[i].sessionId].createdAt
    ensures forall id :: id in s.sessions.entries ==> exists i :: 0 <= i < |l.rows| && l.rows[i].sessionId == id
    ensures |l.rows| == |s.sessions.order| && forall i :: 0 <= i < |l.rows| ==> l.rows[i].sessionId == s.sessions.order[i]
  {
    JsMap.SizeIsKeyCount(s.sessions);
    var order := s.sessions.order;
    var rows := seq(|order|, i requires 0 <= i < |order| =>
      Row(order[i], s.sessions.entries[order[i]].phoneNumber, s.sessions.entries[order[i]].createdAt));
    assert forall i :: 0 <= i < |order| ==> rows[i].sessionId == order[i];
    Listing(|rows|, MAX_SESSIONS, rows)
  }

  /**
   * `DELETE /api/session/:sessionId`: an unknown id is answered 404 and
   * changes nothing; a known one loses its entry and its folder, and nothing
   * else changes.
   */
  function Remove(s: State, id: SessionId): (r: (State, Reply))
    ensures id !in s.sessions.entries <==> r.1 == NotFound
    ensures id !in s.sessions.entries ==> r.0 == s
    ensures id in s.sessions.entries ==>
      && r.1 == Removed
      && r.0.sessions.entries == s.sessions.entries - {id}
      && JsMap.Size(r.0.sessions) == JsMap.Size(s.sessions) - 1
      && r.0.manager.folders == s.manager.folders - {id}
      && r.0.manager.active == s.manager.active
      && r.0.manager.retries == s.manager.retries
      && r.0.manager.timers == s.manager.timers
  {
    if id !in s.sessions.entries then (s, NotFound)
    else
      var m := s.manager.(folders := s.manager.folders - {id});
      (State(JsMap.Delete(s.sessions, id), m), Removed)
  }

  /** Under sequential execution the map never holds more than 50 sessions. */
  lemma PairKeepsCap(s: State, body: Phone.BodyField, now: nat, setup: SessionManager.Setup)
    requires Inv(s)
    ensures Inv(Pair(s, body, now, setup).0)
  {
  }

  lemma RemoveKeepsCap(s: State, id: SessionId)
    requires Inv(s)
    ensures Inv(Remove(s, id).0)
  {
  }

  /** With 50 sessions tracked, a further valid request is answered 429 with `current: 50` and the map keeps 50 entries. */
  lemma FullGatewayRefuses(s: State, body: Phone.BodyField, now: nat, setup: SessionManager.Setup)
    requires |s.sessions.entries| == MAX_SESSIONS && Phone.Validate(body).Ok?
    ensures Pair(s, body, now, setup).1 == LimitReached(50, 50)
    ensures |Pair(s, body, now, setup).0.sessions.entries| == 50
  {
    JsMap.SizeIsKeyCount(s.sessions);
  }

  /** Below the cap a valid request whose id is new adds exactly one entry when the start succeeds. */
  lemma SuccessfulPairAddsOne(s: State, raw: string, now: nat, sock: SessionManager.Socket, registered: bool)
    requires JsMap.Size(s.sessions) < MAX_SESSIONS && |Phone.Clean(raw)| >= Phone.MIN_DIGITS
    requires SessionIds.SessionIdOf(Phone.Clean(raw), now) !in s.sessions.entries
    requires SessionIds.SessionIdOf(Phone.Clean(raw), now) !in s.manager.active.entries
    ensures var (t, reply) := Pair(s, Phone.Text(raw), now, SessionManager.SetupOk(sock, registered));
      var id := SessionIds.SessionIdOf(Phone.Clean(raw), now);
      && reply == Created(id, Phone.Clean(raw))
      && |t.sessions.entries| == |s.sessions.entries| + 1
      && t.sessions.entries[id] == AppEntry(Phone.Clean(raw), sock, now)
  {
    var id := SessionIds.SessionIdOf(Phone.Clean(raw), now);
    var t := Pair(s, Phone.Text(raw), now, SessionManager.SetupOk(sock, registered)).0;
    JsMap.SizeIsKeyCount(s.sessions);
    JsMap.SizeIsKeyCount(t.sessions);
  }

  /** Deleting a known session and then deleting it again is answered 404. */
  lemma RemoveThenNotFound(s: State, id: SessionId)
    requires id in s.sessions.entries
    ensures Remove(s, id).1 == Removed
    ensures Remove(Remove(s, id).0, id).1 == NotFound
  {
  }
}
