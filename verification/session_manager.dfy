/**
 * The session manager of index.js as a sequential state machine.
 *
 * State: the in-memory `activeSessions` and `sessionRetries` maps, the folders
 * under `./sessions` with their status files, and the timers the manager has
 * scheduled but that have not fired yet. Everything the socket library decides
 * (the socket it hands out, whether the stored credentials are registered, the
 * pairing code, the connection events and their status codes) arrives as an
 * input of a transition.
 */
module SessionManager {
  import opened Base
  import JsMap
  import Phone
  import PairingCode

  /** Consecutive reconnects allowed before a session is abandoned. */
  const MAX_RETRIES: nat := 3
  /** `DisconnectReason.loggedOut` of the socket library. */
  const LOGGED_OUT: int := 401
  const HOUR_MS: int := 3600000
  /** `cleanupOldSessions()` called without an argument. */
  const DEFAULT_MAX_AGE_HOURS: int := 24
  const INVALID_NUMBER: string := "Invalid phone number"

  type SessionId = string
  /** The socket object `makeWASocket` returns, known only by identity. */
  type Socket = nat

  datatype Status = Pending(createdAt: int) | Connected(connectedAt: int)

  /** A value of `activeSessions`. */
  datatype Entry = Entry(session: Socket, phoneNumber: string, status: Status)

  datatype FileStatus = FilePending | FileConnected

  /** `pairing.json` */
  datatype PairingFile = PairingFile(
    sessionId: SessionId, phoneNumber: string, code: string, timestamp: int,
    status: FileStatus, connectedAt: Option<int>)

  /** `error.json` (its `status` is always `error`; the stack trace is not kept). */
  datatype ErrorFile = ErrorFile(sessionId: SessionId, phoneNumber: string, error: string, timestamp: int)

  /** A folder under `./sessions`, with the modification time the age sweep reads. */
  datatype Folder = Folder(mtime: int, pairing: Option<PairingFile>, error: Option<ErrorFile>)

  /** A callback the manager has scheduled and that has not run yet. */
  datatype Timer =
    | PairingTimer(sessionId: SessionId, phoneNumber: string, session: Socket)  // the 3 s wait before asking for a code
    | ReconnectTimer(sessionId: SessionId, phoneNumber: string)               // the 5 s back-off before a restart

  datatype State = State(
    active: JsMap.OrderedMap<SessionId, Entry>,
    retries: map<SessionId, nat>,
    folders: map<string, Folder>,
    timers: multiset<Timer>)

  /** What the socket library does when a session is set up. */
  datatype Setup =
    | SetupFailed(message: string)                // fetching the version, loading the credentials or building the socket threw
    | SetupOk(session: Socket, registered: bool)  // the new socket, and `state.creds.registered`

  /** What `sock.requestPairingCode` does. */
  datatype CodeRequest = CodeIssued(raw: string) | CodeRefused(message: string)

  /** A call of `global.pairingCallbacks[sessionId]`: `(code)` or `(null, message)`. */
  datatype Callback = CodeDelivered(sessionId: SessionId, code: string) | CodeFailed(sessionId: SessionId, message: string)

  datatype CloseReply = SessionClosed | SessionNotFound

  /** One row of `getAllSessions()`. */
  datatype Summary = Summary(
    sessionId: SessionId, phoneNumber: string, connected: bool,
    createdAt: Option<int>, connectedAt: Option<int>, uptime: int)

  /** Every stored retry counter lies between 1 and the budget. */
  ghost predicate Inv(s: State) {
    forall id :: id in s.retries ==> 1 <= s.retries[id] <= MAX_RETRIES
  }

  /** Process start: the maps are empty, and the folders are whatever an earlier run left under `./sessions`. */
  function Init(folders: map<SessionId, Folder>): (s: State)
    ensures Inv(s) && s.active.entries == map[] && JsMap.Size(s.active) == 0
    ensures s.retries == map[] && s.folders == folders && s.timers == multiset{}
  {
    State(JsMap.Empty(), map[], folders, multiset{})
  }

  /** `sessionRetries.get(sessionId) || 0` */
  function RetryCount(retries: map<SessionId, nat>, id: SessionId): nat {
    if id in retries then retries[id] else 0
  }

  /** Writing a status file that is not there yet adds a directory entry, which moves the folder's mtime. */
  function WritePairing(f: Folder, p: PairingFile, now: int): (g: Folder)
    ensures g.pairing == Some(p) && g.error == f.error
    ensures g.mtime == (if f.pairing.None? then now else f.mtime)
  {
    Folder(if f.pairing.None? then now else f.mtime, Some(p), f.error)
  }

  function WriteError(f: Folder, e: ErrorFile, now: int): (g: Folder)
    ensures g.error == Some(e) && g.pairing == f.pairing
    ensures g.mtime == (if f.error.None? then now else f.mtime)
  {
    Folder(if f.error.None? then now else f.mtime, f.pairing, Some(e))
  }

  /**
   * `startBotSession(phoneNumber, sessionId)`: a session already in
   * `activeSessions` gets its socket back and nothing changes; otherwise the
   * folder is made if missing, the socket is set up, a pairing request is
   * scheduled when the credentials are not registered, and a pending entry is
   * stored.
   */
  function Start(s: State, phone: string, id: SessionId, now: int, setup: Setup): (r: (State, Result<Socket, string>))
    ensures id in s.active.entries ==> r == (s, Ok(s.active.entries[id].session))
    ensures id !in s.active.entries ==>
      && id in r.0.folders
      && (id in s.folders ==> r.0.folders == s.folders)
      && (id !in s.folders ==> r.0.folders == s.folders[id := Folder(now, None, None)])
      && r.0.retries == s.retries
    ensures id !in s.active.entries && setup.SetupFailed? ==>
      && r.1 == Err(setup.message)
      && r.0.active == s.active && r.0.timers == s.timers
    ensures id !in s.active.entries && setup.SetupOk? ==>
      && r.1 == Ok(setup.session)
      && r.0.active.entries == s.active.entries[id := Entry(setup.session, phone, Pending(now))]
      && JsMap.Size(r.0.active) == JsMap.Size(s.active) + 1
      && (setup.registered ==> r.0.timers == s.timers)
      && (!setup.registered ==> r.0.timers == s.timers + multiset{PairingTimer(id, phone, setup.session)})
  {
    if id in s.active.entries then (s, Ok(s.active.entries[id].session))
    else
      var folders := if id in s.folders then s.folders else s.folders[id := Folder(now, None, None)];
      match setup
      case SetupFailed(message) => (s.(folders := folders), Err(message))
      case SetupOk(sock, registered) =>
        var timers := if registered then s.timers else s.timers + multiset{PairingTimer(id, phone, sock)};
        (State(JsMap.Set(s.active, id, Entry(sock, phone, Pending(now))), s.retries, folders, timers), Ok(sock))
  }

  /**
   * The scheduled pairing request. When the folder is gone every write
   * throws, the catch block's own write throws again, and nothing is written
   * and no callback runs.
   */
  function PairingTask(s: State, id: SessionId, phone: string, now: int, valid: bool,
                       request: CodeRequest, hasCallback: bool): (r: (State, Option<Callback>))
    ensures r.0.active == s.active && r.0.retries == s.retries && r.0.timers == s.timers
    ensures r.0.folders.Keys == s.folders.Keys
    ensures forall other :: other in s.folders && other != id ==> r.0.folders[other] == s.folders[other]
    ensures id !in s.folders ==> r == (s, None)
    ensures id in s.folders && !valid ==>
      && r.1 == None
      && r.0.folders[id].pairing == s.folders[id].pairing
      && r.0.folders[id].error == Some(ErrorFile(id, Phone.Clean(phone), INVALID_NUMBER, now))
      && r.0.folders[id].mtime == (if s.folders[id].error.None? then now else s.folders[id].mtime)
    ensures id in s.folders && valid && request.CodeIssued? ==>
      && r.0.folders[id].error == s.folders[id].error
      && r.0.folders[id].pairing == Some(PairingFile(id, Phone.Clean(phone), PairingCode.Format(request.raw), now, FilePending, None))
      && r.0.folders[id].mtime == (if s.folders[id].pairing.None? then now else s.folders[id].mtime)
      && r.1 == (if hasCallback then Some(CodeDelivered(id, PairingCode.Format(request.raw))) else None)
    ensures id in s.folders && valid && request.CodeRefused? ==>
      && r.0.folders[id].pairing == s.folders[id].pairing
      && r.0.folders[id].error == Some(ErrorFile(id, Phone.Clean(phone), request.message, now))
      && r.0.folders[id].mtime == (if s.folders[id].error.None? then now else s.folders[id].mtime)
      && r.1 == (if hasCallback then Some(CodeFailed(id, request.message)) else None)
  {
    if id !in s.folders then (s, None)
    else
      var clean := Phone.Clean(phone);
      var f := s.folders[id];
      if !valid then
        (s.(folders := s.folders[id := WriteError(f, ErrorFile(id, clean, INVALID_NUMBER, now), now)]), None)
      else
        match request
        case CodeIssued(raw) =>
          var code := PairingCode.Format(raw);
          var p := PairingFile(id, clean, code, now, FilePending, None);
          (s.(folders := s.folders[id := WritePairing(f, p, now)]),
           if hasCallback then Some(CodeDelivered(id, code)) else None)
        case CodeRefused(message) =>
          (s.(folders := s.folders[id := WriteError(f, ErrorFile(id, clean, message, now), now)]),
           if hasCallback then Some(CodeFailed(id, message)) else None)
  }

  /** `pairing.json` after the `open` handler rewrites it: only the status and `connectedAt` change. */
  function MarkConnected(p: PairingFile, now: int): (q: PairingFile)
    ensures q.sessionId == p.sessionId && q.phoneNumber == p.phoneNumber
    ensures q.code == p.code && q.timestamp == p.timestamp
    ensures q.status == FileConnected && q.connectedAt == Some(now)
  {
    p.(status := FileConnected, connectedAt := Some(now))
  }

  /**
   * `connection === 'open'`: the retry counter is dropped, the entry is
   * replaced by a connected one (the creation time is not carried over), and
   * an existing `pairing.json` is marked connected.
   */
  function Open(s: State, id: SessionId, phone: string, sock: Socket, now: int): (r: State)
    ensures id !in r.retries && forall other :: other in s.retries && other != id ==> other in r.retries && r.retries[other] == s.retries[other]
    ensures r.retries.Keys == s.retries.Keys - {id}
    ensures r.active.entries == s.active.entries[id := Entry(sock, phone, Connected(now))]
    ensures r.folders.Keys == s.folders.Keys && r.timers == s.timers
    ensures forall other :: other in s.folders && other != id ==> r.folders[other] == s.folders[other]
    ensures id in s.folders ==>
      && r.folders[id].mtime == s.folders[id].mtime
      && r.folders[id].error == s.folders[id].error
      && (s.folders[id].pairing.None? ==> r.folders[id].pairing.None?)
      && (s.folders[id].pairing.Some? ==> r.folders[id].pairing == Some(MarkConnected(s.folders[id].pairing.value, now)))
  {
    var folders :=
      if id in s.folders && s.folders[id].pairing.Some? then
        s.folders[id := s.folders[id].(pairing := Some(MarkConnected(s.folders[id].pairing.value, now)))]
      else s.folders;
    State(JsMap.Set(s.active, id, Entry(sock, phone, Connected(now))), s.retries - {id}, folders, s.timers)
  }

  /** `statusCode === DisconnectReason.loggedOut || statusCode === 401` */
  predicate IsAuthTerminated(statusCode: Option<int>) {
    statusCode == Some(LOGGED_OUT) || statusCode == Some(401)
  }

  /**
   * `connection === 'close'`: the entry is always dropped first. A logged-out
   * session loses its folder and counter; any other close restarts the session
   * after the back-off while the budget lasts, and abandons it (folder and
   * counter gone) once the budget is spent.
   */
  function Close(s: State, id: SessionId, phone: string, statusCode: Option<int>): (r: State)
    ensures r.active.entries == s.active.entries - {id}
    ensures IsAuthTerminated(statusCode) || RetryCount(s.retries, id) >= MAX_RETRIES ==>
      && r.folders == s.folders - {id}
      && r.retries == s.retries - {id}
      && r.timers == s.timers
    ensures !IsAuthTerminated(statusCode) && RetryCount(s.retries, id) < MAX_RETRIES ==>
      && r.folders == s.folders
      && r.retries == s.retries[id := RetryCount(s.retries, id) + 1]
      && r.timers == s.timers + multiset{ReconnectTimer(id, phone)}
  {
    var active := JsMap.Delete(s.active, id);
    if IsAuthTerminated(statusCode) then
      State(active, s.retries - {id}, s.folders - {id}, s.timers)
    else
      var retries := RetryCount(s.retries, id);
      if retries >= MAX_RETRIES then State(active, s.retries - {id}, s.folders - {id}, s.timers)
      else State(active, s.retries[id := retries + 1], s.folders, s.timers + multiset{ReconnectTimer(id, phone)})
  }

  /**
   * `closeSession(sessionId)`: an unknown id changes nothing; a known one
   * leaves both maps and keeps its folder.
   */
  function CloseSession(s: State, id: SessionId): (r: (State, CloseReply))
    ensures id !in s.active.entries <==> r.1 == SessionNotFound
    ensures id !in s.active.entries ==> r.0 == s
    ensures id in s.active.entries ==>
      && r.0.active.entries == s.active.entries - {id}
      && JsMap.Size(r.0.active) == JsMap.Size(s.active) - 1
      && r.0.retries == s.retries - {id}
      && r.0.folders == s.folders && r.0.timers == s.timers
  {
    if id !in s.active.entries then (s, SessionNotFound)
    else (s.(active := JsMap.Delete(s.active, id), retries := s.retries - {id}), SessionClosed)
  }

  /** `now - stats.mtimeMs > maxAge` */
  predicate IsStale(f: Folder, maxAgeHours: int, now: int) {
    now - f.mtime > maxAgeHours * HOUR_MS
  }

  /**
   * `cleanupOldSessions(maxAgeHours)`: every folder older than the limit is
   * removed, whether or not its session is live.
   */
  function Cleanup(s: State, maxAgeHours: int, now: int): (r: State)
    ensures forall name :: name in r.folders <==> name in s.folders && !IsStale(s.folders[name], maxAgeHours, now)
    ensures forall name :: name in r.folders ==> r.folders[name] == s.folders[name]
    ensures r.active == s.active && r.retries == s.retries && r.timers == s.timers
  {
    s.(folders := map name | name in s.folders && !IsStale(s.folders[name], maxAgeHours, now) :: s.folders[name])
  }

  /** Some process wrote into the folder (the socket library saving credentials, say). */
  function Touch(s: State, id: SessionId, now: int): (r: State)
    ensures r.folders.Keys == s.folders.Keys
    ensures r.active == s.active && r.retries == s.retries && r.timers == s.timers
  {
    if id in s.folders then s.(folders := s.folders[id := s.folders[id].(mtime := now)]) else s
  }

  function SummaryOf(id: SessionId, e: Entry, now: int): (r: Summary)
    ensures r.sessionId == id && r.phoneNumber == e.phoneNumber && r.connected == e.status.Connected?
    ensures e.status.Connected? ==>
      r.uptime == now - e.status.connectedAt && r.createdAt.None? && r.connectedAt == Some(e.status.connectedAt)
    ensures e.status.Pending? ==>
      r.uptime == 0 && r.createdAt == Some(e.status.createdAt) && r.connectedAt.None?
  {
    match e.status
    case Pending(createdAt) => Summary(id, e.phoneNumber, false, Some(createdAt), None, 0)
    case Connected(connectedAt) => Summary(id, e.phoneNumber, true, None, Some(connectedAt), now - connectedAt)
  }

  /** `getAllSessions()`: one row per entry, in insertion order. */
  function AllSessions(s: State, now: int): (rows: seq<Summary>)
    ensures |rows| == |s.active.entries|
    ensures forall i :: 0 <= i < |rows| ==> rows[i].sessionId in s.active.entries
    ensures forall id :: id in s.active.entries ==> exists i :: 0 <= i < |rows| && rows[i].sessionId == id
    ensures forall i, j :: 0 <= i < j < |rows| ==> rows[i].sessionId != rows[j].sessionId
    ensures forall i :: 0 <= i < |rows| ==>
      var e := s.active.entries[rows[i].sessionId];
      && rows[i].phoneNumber == e.phoneNumber
      && rows[i].connected == e.status.Connected?
      && (e.status.Connected? ==>
            rows[i].uptime == now - e.status.connectedAt && rows[i].createdAt.None?
            && rows[i].connectedAt == Some(e.status.connectedAt))
      && (e.status.Pending? ==>
            rows[i].uptime == 0 && rows[i].createdAt == Some(e.status.createdAt) && rows[i].connectedAt.None?)
    ensures |rows| == |s.active.order| && forall i :: 0 <= i < |rows| ==> rows[i].sessionId == s.active.order[i]
  {
    JsMap.SizeIsKeyCount(s.active);
    var order := s.active.order;
    var rows := seq(|order|, i requires 0 <= i < |order| => SummaryOf(order[i], s.active.entries[order[i]], now));
    assert forall i :: 0 <= i < |order| ==> rows[i].sessionId == order[i];
    rows
  }

  /** Everything that can happen to the manager. */
  datatype Event =
    | StartCall(phone: string, id: SessionId, now: int, setup: Setup)
    | PairingDue(timer: Timer, now: int, valid: bool, request: CodeRequest, hasCallback: bool)
    | ReconnectDue(timer: Timer, now: int, setup: Setup)
    | ConnectionOpen(id: SessionId, phone: string, sock: Socket, now: int)
    | ConnectionClose(id: SessionId, phone: string, statusCode: Option<int>)
    | CloseSessionCall(id: SessionId)
    | CleanupCall(maxAgeHours: int, now: int)
    | FolderTouched(id: SessionId, now: int)

  /** A timer runs at most once: firing takes it out of the pending set. */
  function Step(s: State, e: Event): State {
    match e
    case StartCall(phone, id, now, setup) => Start(s, phone, id, now, setup).0
    case PairingDue(t, now, valid, request, hasCallback) =>
      if t in s.timers && t.PairingTimer? then
        PairingTask(s.(timers := s.timers - multiset{t}), t.sessionId, t.phoneNumber, now, valid, request, hasCallback).0
      else s
    case ReconnectDue(t, now, setup) =>
      if t in s.timers && t.ReconnectTimer? then
        Start(s.(timers := s.timers - multiset{t}), t.phoneNumber, t.sessionId, now, setup).0
      else s
    case ConnectionOpen(id, phone, sock, now) => Open(s, id, phone, sock, now)
    case ConnectionClose(id, phone, statusCode) => Close(s, id, phone, statusCode)
    case CloseSessionCall(id) => CloseSession(s, id).0
    case CleanupCall(maxAgeHours, now) => Cleanup(s, maxAgeHours, now)
    case FolderTouched(id, now) => Touch(s, id, now)
  }

  function Run(s: State, events: seq<Event>): State
    decreases |events|
  {
    if |events| == 0 then s else Run(Step(s, events[0]), events[1..])
  }

  /** Only open, close and `closeSession` touch the retry counters. */
  lemma StepKeepsCounters(s: State, e: Event)
    requires !e.ConnectionOpen? && !e.ConnectionClose? && !e.CloseSessionCall?
    ensures Step(s, e).retries == s.retries
  {
  }

  /** No counter ever exceeds the budget. */
  lemma StepPreservesInv(s: State, e: Event)
    requires Inv(s)
    ensures Inv(Step(s, e))
  {
    match e
    case ConnectionClose(id, phone, statusCode) =>
      var r := Step(s, e);
      forall other | other in r.retries
        ensures 1 <= r.retries[other] <= MAX_RETRIES
      {
        if other != id {
          assert r.retries[other] == s.retries[other];
        }
      }
    case _ =>
  }

  lemma {:induction false} RunPreservesInv(s: State, events: seq<Event>)
    requires Inv(s)
    ensures Inv(Run(s, events))
    decreases |events|
  {
    if |events| > 0 {
      StepPreservesInv(s, events[0]);
      RunPreservesInv(Step(s, events[0]), events[1..]);
    }
  }
}
