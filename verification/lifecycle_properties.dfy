/**
 * Properties of the index.js session manager that relate several
 * transitions: idempotent start, the retry budget over a run of closes, and
 * facts about the status files and the age sweep.
 */
module LifecycleProperties {
  import opened Base
  import JsMap
  import opened SessionManager

  /** A second start of a session that started returns the same socket and changes nothing. */
  lemma StartIdempotent(s: State, phone: string, id: SessionId, now: int, setup: Setup,
                        phone2: string, now2: int, setup2: Setup)
    requires Start(s, phone, id, now, setup).1.Ok?
    ensures var (s1, r1) := Start(s, phone, id, now, setup);
      Start(s1, phone2, id, now2, setup2) == (s1, r1)
  {
    var (s1, r1) := Start(s, phone, id, now, setup);
    assert id in s1.active.entries && r1 == Ok(s1.active.entries[id].session);
  }

  /** `n` consecutive closes of one session with the same status code. */
  function Closes(s: State, id: SessionId, phone: string, statusCode: Option<int>, n: nat): State
    decreases n
  {
    if n == 0 then s else Close(Closes(s, id, phone, statusCode, n - 1), id, phone, statusCode)
  }

  /** `n` copies of one timer. */
  function Repeat(t: Timer, n: nat): (m: multiset<Timer>)
    ensures m[t] == n && |m| == n
    decreases n
  {
    if n == 0 then multiset{} else Repeat(t, n - 1) + multiset{t}
  }

  lemma RepeatOneMore(m: multiset<Timer>, t: Timer, n: nat)
    requires n > 0
    ensures (m + Repeat(t, n - 1)) + multiset{t} == m + Repeat(t, n)
  {
  }

  /**
   * While the budget lasts, each transient close raises the counter by one and
   * schedules exactly one restart with the same id and number; the folder stays.
   */
  lemma {:induction false} TransientClosesWithinBudget(s: State, id: SessionId, phone: string, statusCode: Option<int>, n: nat)
    requires !IsAuthTerminated(statusCode)
    requires RetryCount(s.retries, id) + n <= MAX_RETRIES
    ensures var t := Closes(s, id, phone, statusCode, n);
      && RetryCount(t.retries, id) == RetryCount(s.retries, id) + n
      && t.folders == s.folders
      && t.timers == s.timers + Repeat(ReconnectTimer(id, phone), n)
      && (n > 0 ==> id !in t.active.entries)
    decreases n
  {
    if n > 0 {
      TransientClosesWithinBudget(s, id, phone, statusCode, n - 1);
      var t := Closes(s, id, phone, statusCode, n - 1);
      var u := Close(t, id, phone, statusCode);
      assert u.timers == t.timers + multiset{ReconnectTimer(id, phone)};
      RepeatOneMore(s.timers, ReconnectTimer(id, phone), n);
    }
  }

  /**
   * Starting from counter `c`, the session is abandoned by close number
   * `k + 1` where `k = MAX_RETRIES - c`: its folder and counter are gone, it
   * is not live, and exactly `k` restarts were scheduled on the way.
   */
  lemma RetryBudgetExhausted(s: State, id: SessionId, phone: string, statusCode: Option<int>, k: nat)
    requires RetryCount(s.retries, id) + k == MAX_RETRIES && !IsAuthTerminated(statusCode)
    ensures var t := Closes(s, id, phone, statusCode, k + 1);
      && id !in t.folders && id !in t.retries && id !in t.active.entries
      && t.timers == s.timers + Repeat(ReconnectTimer(id, phone), k)
  {
    TransientClosesWithinBudget(s, id, phone, statusCode, k);
    var t := Closes(s, id, phone, statusCode, k);
    SpentBudgetClose(t, id, phone, statusCode);
    ClosesOneMore(s, id, phone, statusCode, k);
  }

  lemma ClosesOneMore(s: State, id: SessionId, phone: string, statusCode: Option<int>, k: nat)
    ensures Closes(s, id, phone, statusCode, k + 1) == Close(Closes(s, id, phone, statusCode, k), id, phone, statusCode)
  {
  }

  /** A transient close with the budget spent abandons the session. */
  lemma SpentBudgetClose(t: State, id: SessionId, phone: string, statusCode: Option<int>)
    requires !IsAuthTerminated(statusCode) && RetryCount(t.retries, id) == MAX_RETRIES
    ensures var u := Close(t, id, phone, statusCode);
      && id !in u.folders && id !in u.retries && id !in u.active.entries && u.timers == t.timers
  {
  }

  /**
   * From a fresh counter (right after `open`), three transient closes leave the
   * folder in place with three restarts scheduled; the fourth abandons it.
   */
  lemma ConnectedSessionSurvivesThreeCloses(s: State, id: SessionId, phone: string, statusCode: Option<int>)
    requires id !in s.retries && !IsAuthTerminated(statusCode)
    ensures var t := Closes(s, id, phone, statusCode, 3);
      t.folders == s.folders && t.retries[id] == MAX_RETRIES
      && t.timers == s.timers + Repeat(ReconnectTimer(id, phone), 3)
    ensures id !in Closes(s, id, phone, statusCode, 4).folders
  {
    TransientClosesWithinBudget(s, id, phone, statusCode, 3);
    SpentBudgetClose(Closes(s, id, phone, statusCode, 3), id, phone, statusCode);
    ClosesOneMore(s, id, phone, statusCode, 3);
  }

  /**
   * The program's own rhythm: each transient close is followed by the restart
   * it scheduled, which makes a live socket that the next close can drop.
   * From a fresh counter the first three closes keep the folder, and each
   * restart takes its timer and brings the session back. The fourth close
   * deletes the folder and the counter and schedules nothing.
   */
  lemma RestartsBetweenClosesExhaustBudget(
    s: State, id: SessionId, phone: string, statusCode: Option<int>,
    now1: int, now2: int, now3: int, sock1: Socket, sock2: Socket, sock3: Socket,
    registered1: bool, registered2: bool, registered3: bool)
    requires !IsAuthTerminated(statusCode) && id !in s.retries && id in s.folders
    ensures
      var c := ConnectionClose(id, phone, statusCode);
      var r1 := ReconnectDue(ReconnectTimer(id, phone), now1, SetupOk(sock1, registered1));
      var r2 := ReconnectDue(ReconnectTimer(id, phone), now2, SetupOk(sock2, registered2));
      var r3 := ReconnectDue(ReconnectTimer(id, phone), now3, SetupOk(sock3, registered3));
      var t1 := Run(s, [c, r1]);
      var t2 := Run(s, [c, r1, c, r2]);
      var t3 := Run(s, [c, r1, c, r2, c, r3]);
      var t4 := Run(s, [c, r1, c, r2, c, r3, c]);
      && t1.folders == s.folders && t2.folders == s.folders && t3.folders == s.folders
      && RetryCount(t1.retries, id) == 1 && RetryCount(t2.retries, id) == 2 && RetryCount(t3.retries, id) == MAX_RETRIES
      && id in t1.active.entries && id in t2.active.entries && id in t3.active.entries
      && t3.timers[ReconnectTimer(id, phone)] == s.timers[ReconnectTimer(id, phone)]
      && id !in t4.folders && id !in t4.retries && id !in t4.active.entries
      && t4.timers == t3.timers
  {
    var c := ConnectionClose(id, phone, statusCode);
    var r1 := ReconnectDue(ReconnectTimer(id, phone), now1, SetupOk(sock1, registered1));
    var r2 := ReconnectDue(ReconnectTimer(id, phone), now2, SetupOk(sock2, registered2));
    var r3 := ReconnectDue(ReconnectTimer(id, phone), now3, SetupOk(sock3, registered3));
    var p1 := [c, r1];
    var p2 := [c, r1, c, r2];
    var p3 := [c, r1, c, r2, c, r3];
    assert [] + [c, r1] == p1 && p1 + [c, r2] == p2 && p2 + [c, r3] == p3 && p3 + [c] == [c, r1, c, r2, c, r3, c];
    CycleOnce(s, [], id, phone, statusCode, now1, sock1, registered1);
    CycleOnce(s, p1, id, phone, statusCode, now2, sock2, registered2);
    CycleOnce(s, p2, id, phone, statusCode, now3, sock3, registered3);
    LastClose(s, p3, id, phone, statusCode);
  }

  /** One more close-then-restart after any prefix of events. */
  lemma CycleOnce(s: State, prefix: seq<Event>, id: SessionId, phone: string, statusCode: Option<int>,
                  now: int, sock: Socket, registered: bool)
    requires var t := Run(s, prefix);
      !IsAuthTerminated(statusCode) && RetryCount(t.retries, id) < MAX_RETRIES && id in t.folders
    ensures var t := Run(s, prefix);
      var v := Run(s, prefix + [ConnectionClose(id, phone, statusCode),
                                 ReconnectDue(ReconnectTimer(id, phone), now, SetupOk(sock, registered))]);
      && v.folders == t.folders
      && RetryCount(v.retries, id) == RetryCount(t.retries, id) + 1
      && v.timers[ReconnectTimer(id, phone)] == t.timers[ReconnectTimer(id, phone)]
      && id in v.active.entries
  {
    var c := ConnectionClose(id, phone, statusCode);
    var r := ReconnectDue(ReconnectTimer(id, phone), now, SetupOk(sock, registered));
    var t := Run(s, prefix);
    RunAppend(s, prefix, [c, r]);
    RunPair(t, c, r);
    CloseThenRestart(t, id, phone, statusCode, now, sock, registered);
  }

  /** The close after the budget is spent, after any prefix of events. */
  lemma LastClose(s: State, prefix: seq<Event>, id: SessionId, phone: string, statusCode: Option<int>)
    requires !IsAuthTerminated(statusCode) && RetryCount(Run(s, prefix).retries, id) == MAX_RETRIES
    ensures var t := Run(s, prefix);
      var u := Run(s, prefix + [ConnectionClose(id, phone, statusCode)]);
      && id !in u.folders && id !in u.retries && id !in u.active.entries && u.timers == t.timers
  {
    var t := Run(s, prefix);
    RunAppend(s, prefix, [ConnectionClose(id, phone, statusCode)]);
    RunHead(t, [ConnectionClose(id, phone, statusCode)]);
    SpentBudgetClose(t, id, phone, statusCode);
  }

  /** One transient close within the budget, then the restart it scheduled. */
  lemma CloseThenRestart(s: State, id: SessionId, phone: string, statusCode: Option<int>,
                         now: int, sock: Socket, registered: bool)
    requires !IsAuthTerminated(statusCode) && RetryCount(s.retries, id) < MAX_RETRIES && id in s.folders
    ensures var u := Step(s, ConnectionClose(id, phone, statusCode));
      var v := Step(u, ReconnectDue(ReconnectTimer(id, phone), now, SetupOk(sock, registered)));
      && v.folders == s.folders
      && RetryCount(v.retries, id) == RetryCount(s.retries, id) + 1
      && v.timers[ReconnectTimer(id, phone)] == s.timers[ReconnectTimer(id, phone)]
      && id in v.active.entries
  {
    TransientCloseWithinBudget(s, id, phone, statusCode);
    RestartFires(Step(s, ConnectionClose(id, phone, statusCode)), id, phone, now, sock, registered);
  }

  /** A transient close within the budget keeps the folder, counts, and schedules one restart. */
  lemma TransientCloseWithinBudget(s: State, id: SessionId, phone: string, statusCode: Option<int>)
    requires !IsAuthTerminated(statusCode) && RetryCount(s.retries, id) < MAX_RETRIES
    ensures var u := Step(s, ConnectionClose(id, phone, statusCode));
      && u.folders == s.folders && id !in u.active.entries
      && RetryCount(u.retries, id) == RetryCount(s.retries, id) + 1
      && u.timers[ReconnectTimer(id, phone)] == s.timers[ReconnectTimer(id, phone)] + 1
  {
    var u := Close(s, id, phone, statusCode);
    assert Step(s, ConnectionClose(id, phone, statusCode)) == u;
  }

  /** A due restart takes its timer, keeps the folder and the counter, and stores an entry. */
  lemma RestartFires(u: State, id: SessionId, phone: string, now: int, sock: Socket, registered: bool)
    requires ReconnectTimer(id, phone) in u.timers && id !in u.active.entries && id in u.folders
    ensures var v := Step(u, ReconnectDue(ReconnectTimer(id, phone), now, SetupOk(sock, registered)));
      && v.folders == u.folders && v.retries == u.retries && id in v.active.entries
      && v.timers[ReconnectTimer(id, phone)] == u.timers[ReconnectTimer(id, phone)] - 1
  {
    var t := ReconnectTimer(id, phone);
    var w := u.(timers := u.timers - multiset{t});
    assert w.timers[t] == u.timers[t] - 1;
    var r := Start(w, phone, id, now, SetupOk(sock, registered)).0;
    assert Step(u, ReconnectDue(t, now, SetupOk(sock, registered))) == r;
    assert r.timers[t] == w.timers[t];
  }

  lemma RunPair(s: State, a: Event, b: Event)
    ensures Run(s, [a, b]) == Step(Step(s, a), b)
  {
    RunHead(s, [a, b]);
    RunHead(Step(s, a), [b]);
  }

  /** Running two lists back to back is running their concatenation. */
  lemma {:induction false} RunAppend(s: State, a: seq<Event>, b: seq<Event>)
    ensures Run(s, a + b) == Run(Run(s, a), b)
    decreases |a|
  {
    if |a| > 0 {
      assert (a + b)[0] == a[0];
      assert (a + b)[1..] == a[1..] + b;
      RunAppend(Step(s, a[0]), a[1..], b);
    } else {
      assert a + b == b;
    }
  }

  /** A logged-out close schedules nothing and deletes the folder, whatever the counter says. */
  lemma AuthCloseIsTerminal(s: State, id: SessionId, phone: string, statusCode: Option<int>)
    requires IsAuthTerminated(statusCode)
    ensures var t := Close(s, id, phone, statusCode);
      && id !in t.folders && id !in t.retries && id !in t.active.entries
      && t.timers == s.timers
  {
  }

  /**
   * `closeSession` clears the counter but cancels nothing, so when the closed
   * socket then reports a transient close, a restart is scheduled.
   */
  lemma ClosedSessionCanRestart(s: State, id: SessionId, phone: string, statusCode: Option<int>)
    requires id in s.active.entries && !IsAuthTerminated(statusCode)
    ensures var t := Close(CloseSession(s, id).0, id, phone, statusCode);
      t.timers == s.timers + multiset{ReconnectTimer(id, phone)} && t.retries[id] == 1
  {
  }

  /**
   * A folder can hold both status files: a first attempt writes `pairing.json`,
   * and after a restart a failed request writes `error.json` beside it.
   */
  lemma BothStatusFilesReachable(s0: State, phone: string, id: SessionId, raw: string, message: string)
    requires s0 == Init(map[])
    ensures var events := [
        StartCall(phone, id, 0, SetupOk(1, false)),
        PairingDue(PairingTimer(id, phone, 1), 3000, true, CodeIssued(raw), false),
        ConnectionClose(id, phone, Some(428)),
        ReconnectDue(ReconnectTimer(id, phone), 8000, SetupOk(2, false)),
        PairingDue(PairingTimer(id, phone, 2), 11000, true, CodeRefused(message), false)];
      var t := Run(s0, events);
      id in t.folders && t.folders[id].pairing.Some? && t.folders[id].error.Some?
  {
    var e1 := StartCall(phone, id, 0, SetupOk(1, false));
    var e2 := PairingDue(PairingTimer(id, phone, 1), 3000, true, CodeIssued(raw), false);
    var e3 := ConnectionClose(id, phone, Some(428));
    var e4 := ReconnectDue(ReconnectTimer(id, phone), 8000, SetupOk(2, false));
    var e5 := PairingDue(PairingTimer(id, phone, 2), 11000, true, CodeRefused(message), false);
    var s1 := Step(s0, e1);
    var s2 := Step(s1, e2);
    var s3 := Step(s2, e3);
    var s4 := Step(s3, e4);
    var s5 := Step(s4, e5);
    StartSchedulesPairing(s0, phone, id, 0, 1);
    PairingWritesCode(s1, phone, id, 1, 3000, raw);
    TransientCloseSchedulesRestart(s2, phone, id, Some(428));
    RestartSchedulesPairing(s3, phone, id, 8000, 2);
    PairingFailureWritesError(s4, phone, id, 2, 11000, message);
    RunFive(s0, e1, e2, e3, e4, e5);
  }

  /** Running five events is stepping through them in order. */
  lemma RunFive(s: State, e1: Event, e2: Event, e3: Event, e4: Event, e5: Event)
    ensures Run(s, [e1, e2, e3, e4, e5]) == Step(Step(Step(Step(Step(s, e1), e2), e3), e4), e5)
  {
    var t1 := Step(s, e1);
    var t2 := Step(t1, e2);
    var t3 := Step(t2, e3);
    var t4 := Step(t3, e4);
    RunHead(s, [e1, e2, e3, e4, e5]);
    RunHead(t1, [e2, e3, e4, e5]);
    RunHead(t2, [e3, e4, e5]);
    RunHead(t3, [e4, e5]);
    RunHead(t4, [e5]);
  }

  lemma RunHead(s: State, events: seq<Event>)
    requires |events| > 0
    ensures Run(s, events) == Run(Step(s, events[0]), events[1..])
  {
  }

  /** Starting an unregistered session that is not live schedules its pairing request and makes its folder. */
  lemma StartSchedulesPairing(s: State, phone: string, id: SessionId, now: int, sock: Socket)
    requires id !in s.active.entries
    ensures var t := Step(s, StartCall(phone, id, now, SetupOk(sock, false)));
      PairingTimer(id, phone, sock) in t.timers && id in t.folders
  {
  }

  /** The pairing request, when the code comes, writes `pairing.json`. */
  lemma PairingWritesCode(s: State, phone: string, id: SessionId, sock: Socket, now: int, raw: string)
    requires PairingTimer(id, phone, sock) in s.timers && id in s.folders
    ensures var t := Step(s, PairingDue(PairingTimer(id, phone, sock), now, true, CodeIssued(raw), false));
      id in t.folders && t.folders[id].pairing.Some? && t.active == s.active && t.retries == s.retries
  {
  }

  /** The first transient close keeps the folder and schedules a restart. */
  lemma TransientCloseSchedulesRestart(s: State, phone: string, id: SessionId, statusCode: Option<int>)
    requires !IsAuthTerminated(statusCode) && id !in s.retries
    ensures var t := Step(s, ConnectionClose(id, phone, statusCode));
      ReconnectTimer(id, phone) in t.timers && t.folders == s.folders && id !in t.active.entries
  {
  }

  /** The restart of an unregistered session schedules a new pairing request and keeps the folder. */
  lemma RestartSchedulesPairing(s: State, phone: string, id: SessionId, now: int, sock: Socket)
    requires ReconnectTimer(id, phone) in s.timers && id !in s.active.entries && id in s.folders
    ensures var t := Step(s, ReconnectDue(ReconnectTimer(id, phone), now, SetupOk(sock, false)));
      PairingTimer(id, phone, sock) in t.timers && t.folders == s.folders
  {
  }

  /** A failed pairing request writes `error.json` and keeps `pairing.json`. */
  lemma PairingFailureWritesError(s: State, phone: string, id: SessionId, sock: Socket, now: int, message: string)
    requires PairingTimer(id, phone, sock) in s.timers && id in s.folders
    ensures var t := Step(s, PairingDue(PairingTimer(id, phone, sock), now, true, CodeRefused(message), false));
      id in t.folders && t.folders[id].pairing == s.folders[id].pairing && t.folders[id].error.Some?
  {
  }

  /** Sweeping twice at the same moment removes nothing more. */
  lemma CleanupIdempotent(s: State, maxAgeHours: int, now: int)
    ensures Cleanup(Cleanup(s, maxAgeHours, now), maxAgeHours, now) == Cleanup(s, maxAgeHours, now)
  {
  }

  /** With the default of 24 hours a folder goes once it is more than 86 400 000 ms old, and not at exactly that age. */
  lemma DefaultCleanupThreshold(s: State, name: string, now: int)
    requires name in s.folders
    ensures name in Cleanup(s, DEFAULT_MAX_AGE_HOURS, now).folders <==> now - s.folders[name].mtime <= 86400000
  {
  }

  /** Which folders the sweep keeps does not depend on which sessions are live. */
  lemma CleanupIgnoresLiveSessions(s: State, other: JsMap.OrderedMap<SessionId, Entry>, maxAgeHours: int, now: int)
    ensures Cleanup(s.(active := other), maxAgeHours, now).folders == Cleanup(s, maxAgeHours, now).folders
  {
  }
}
