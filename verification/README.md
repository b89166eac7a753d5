# Multi-session WhatsApp gateway: session lifecycle model

A Dafny model of the session-lifecycle core of a multi-session WhatsApp bot
gateway. The gateway hands out pairing codes over HTTP, runs one WhatsApp
socket per linked number, reconnects dropped sockets within a retry budget,
and caps the number of tracked sessions. The model covers three source files.
Each keeps its own stores, and so does the model:

- **index.js: the session manager** (`SessionManager`, `LifecycleProperties`,
  `PairingCode`). Its state is the `activeSessions` map, the `sessionRetries`
  counters, the folders under `./sessions` with their `pairing.json` /
  `error.json` status files, and the timers the manager has scheduled but
  that have not fired. Transitions:
  - `startBotSession`;
  - the deferred pairing-code request;
  - the `open` and `close` connection events;
  - `closeSession`;
  - `cleanupOldSessions`;
  - `getAllSessions`.

  `Step` / `Run` drive the state with any sequence of events. The
  pairing-code formatter `code.match(/.{1,4}/g).join("-") || code` is modelled
  with JavaScript's regular-expression meaning: `.` skips line terminators,
  and a code with no match is returned unchanged.
- **server.js: the pairing front-end** (`PairServer`, `CodeWait`). It covers:
  - the pending-session map and the callback registry;
  - the race between the code callback and the 15-second timer. A promise
    settles once, and the timer rejects only when no code was recorded;
  - the status lookup order: live, then pending, then 404;
  - the ten-minute expiry sweep.
- **app.js: the admission-controlled gateway** (`Gateway`). It covers:
  - the 50-session cap, answered with 429;
  - inserting an entry only after a successful `startBotSession`, which is
    the index.js manager's `Start`;
  - the session listing;
  - `DELETE` with its 404 and 200 answers.

Shared pieces:
- `Phone` models phone cleaning (`replace(/[^0-9]/g, '')`) and the body
  checks that both front-ends use.
- `SessionIds` models the `session_<digits>_<Date.now()>` identifier. It
  includes a parser, which proves that an identifier determines both its
  number and its millisecond.
- `JsMap` models JavaScript's insertion-ordered `Map`. Because of it, the
  listings keep insertion order and `.size` is the key count.

Inputs stand in for everything the WhatsApp socket library decides:
- the socket it returns;
- whether the stored credentials are registered;
- the pairing code or the error;
- the connection events and their status codes;
- the `isValid` answer of the phone-number library.

The session module that server.js imports is also outside the model. The
model takes its answers as inputs: whether a session is live, whether a start
failed, and when the callback is called. Time is a `now` argument, and each
timer firing is an event of its own.

## Model

| member | source | states |
|---|---|---|
| `PairingCode.Matches` | index.js:189 | each match of `/.{1,4}/g` holds one to four characters and no line terminator |
| `PairingCode.Format` | index.js:189 | a code made only of line terminators, the empty code included, is returned as it is (the `|| code` fallback); any other code formats to text without line terminators |
| `PairingCode.MatchesCoverPrintable` | index.js:189 | the matches laid end to end are exactly the code's characters other than line terminators |
| `PairingCode.PlainMatches` | index.js:189 | without line terminators the first match is the first four characters, or the whole code when it is shorter |
| `PairingCode.FormatGroupsOfFour` | index.js:189 | a code of up to four characters is unchanged; a longer one is its first four characters, `-`, then the formatted rest |
| `PairingCode.GroupSizes` | index.js:189 | every group but the last has exactly four characters, the last has one to four, and together they spell the code |
| `PairingCode.FormatLength` | index.js:189 | the formatted code adds one hyphen per group after the first: length `n + (n-1)/4` |
| `PairingCode.HyphenPositions` | index.js:189 | in a formatted hyphen-free code a character is `-` exactly when its position is 4 mod 5 |
| `PairingCode.StripFormatted` | index.js:189 | removing the hyphens from a formatted hyphen-free code gives back the raw code |
| `PairingCode.FormatWithoutMatch` | index.js:189 | a code with nothing to match, the empty code included, gives no matches and is returned unchanged (the `|| code` fallback) |
| `PairingCode.FormatEmpty` | index.js:189 | the empty code stays empty |
| `PairingCode.FormatTwoGroups` | index.js:189 | a code of five to eight characters becomes two groups around one hyphen |
| `PairingCode.FormatExample` | index.js:189 | `ABCD1234` becomes `ABCD-1234` |
| `Phone.Clean` | server.js:61 | cleaning leaves only ASCII digits and never lengthens the number (same expression at app.js:43 and index.js:161) |
| `Phone.CleanKeepsDigits` | server.js:61 | a string of digits is left unchanged |
| `Phone.CleanIdempotent` | server.js:61 | cleaning twice is the same as cleaning once |
| `Phone.CleanConcat` | server.js:61 | cleaning works piecewise over concatenation, so the digits keep their order |
| `Phone.CleanChar` | server.js:61 | a single digit is kept and any other single character is dropped; with `CleanConcat` this fixes the result on every string |
| `Phone.Validate` | server.js:51-69 | a missing or falsy number is refused as required; a non-string number fails with 500; a number with fewer than 10 digits is refused with 400; anything else is accepted as its cleaned digits (same checks at app.js:33-50) |
| `SessionIds.Decimal` | server.js:72 | the decimal text of `Date.now()` is non-empty, all digits, with no leading zero except for 0 itself |
| `SessionIds.ParseDecimal` | server.js:72 | reading that decimal text back gives the number |
| `SessionIds.SessionIdOf` | server.js:72 | the id is `session_`, then the cleaned number, then `_`, then the time |
| `SessionIds.ParseSessionIdOf` | server.js:72 | parsing an id gives back the number and the time it was built from |
| `SessionIds.SessionIdInjective` | app.js:62 | two ids are equal only when the digits and the millisecond are equal |
| `JsMap.Set` | app.js:69 | `Map.set` stores the value; a new key goes last in iteration order and an existing key keeps its place |
| `JsMap.Delete` | app.js:141 | `Map.delete` drops the key and shrinks `size` by one exactly when the key was present, and the other keys keep their iteration order; deleting an absent key changes nothing |
| `JsMap.SizeIsKeyCount` | app.js:53 | `Map.size` equals the number of keys |
| `SessionManager.Init` | index.js:60-61 | both maps start empty and nothing is scheduled; the folders are those an earlier run left under `./sessions`, which survive a restart |
| `SessionManager.Start` | index.js:77-414 | a live id gets its socket back and nothing changes. Otherwise the folder exists afterwards, counters are untouched, a failed setup stores no entry, and a successful one stores a `pending` entry with `createdAt` and schedules a pairing request exactly when the credentials are unregistered |
| `SessionManager.PairingTask` | index.js:155-249 | invalid number: writes `error.json` and calls no callback. Code issued: writes `pairing.json` with the formatted code and status pending, and calls the callback with that code. Request failed: writes `error.json` and calls the callback with `(null, message)`. A missing folder gets no write and no callback. The other status file, other folders and both maps are untouched |
| `SessionManager.MarkConnected` | index.js:276-282 | the rewritten `pairing.json` keeps id, number, code and timestamp, and gains status `connected` and `connectedAt` |
| `SessionManager.Open` | index.js:263-283 | the counter is removed; the entry becomes `connected` with `connectedAt` and no `createdAt`; an existing `pairing.json` is marked connected; nothing else changes |
| `SessionManager.Close` | index.js:305-345 | the entry always goes. A logged-out close or a spent budget deletes the folder and the counter and schedules nothing. Otherwise the counter rises by one and exactly one restart with the same id and number is scheduled |
| `SessionManager.CloseSession` | index.js:444-469 | an unknown id answers not-found and changes nothing; a known one leaves both maps and keeps its folder and timers |
| `SessionManager.Cleanup` | index.js:474-497 | exactly the folders with `now - mtime > hours*3600000` are removed, the others are kept as they were, and the maps are untouched |
| `SessionManager.AllSessions` | index.js:426-439 | one row per live entry, in the map's insertion order, with distinct ids and the entry's number. A connected row has `connectedAt` set, no `createdAt`, and `uptime = now - connectedAt`. A pending row has `createdAt` set, no `connectedAt`, and `uptime` 0 |
| `SessionManager.StepKeepsCounters` | index.js:326-337 | only open, close and `closeSession` touch the retry counters |
| `SessionManager.StepPreservesInv` | index.js:326-337 | every stored counter stays between 1 and `MAX_RETRIES` after any event |
| `SessionManager.RunPreservesInv` | index.js:326-344 | the counter bound holds after any sequence of events |
| `LifecycleProperties.StartIdempotent` | index.js:81-85 | starting an id that started returns the same socket and leaves the state unchanged |
| `LifecycleProperties.TransientClosesWithinBudget` | index.js:326-344 | within the budget, each transient close adds one to the counter and one restart with the same id and number, and keeps the folder |
| `LifecycleProperties.RetryBudgetExhausted` | index.js:328-335 | with back-to-back closes and the restarts left pending: from counter `c`, close number `4 - c` deletes folder and counter, and `3 - c` restarts are scheduled |
| `LifecycleProperties.ConnectedSessionSurvivesThreeCloses` | index.js:326-344 | with back-to-back closes and the restarts left pending: from a fresh counter, three transient closes keep the folder and schedule three restarts; the fourth deletes it |
| `LifecycleProperties.RestartsBetweenClosesExhaustBudget` | index.js:326-344 | with each restart run between the closes (close, restart, three times, then a close): the folder survives the first three closes, the counter reads 1, 2, 3, each restart brings the entry back and takes the timer its close scheduled, and the fourth close deletes folder, counter and entry and schedules nothing |
| `LifecycleProperties.CycleOnce` | index.js:326-343 | after any history, a transient close within the budget followed by its restart keeps the folder, adds one to the counter, leaves the pending restarts as they were, and makes the session live again |
| `LifecycleProperties.LastClose` | index.js:330-335 | after any history that spent the budget, the next transient close deletes folder, counter and entry and schedules nothing |
| `LifecycleProperties.TransientCloseWithinBudget` | index.js:326-339 | a transient close within the budget keeps the folder, drops the entry, adds one to the counter and schedules one restart |
| `LifecycleProperties.RestartFires` | index.js:340-343 | a due restart takes its timer, keeps folder and counter, and makes the session live |
| `LifecycleProperties.AuthCloseIsTerminal` | index.js:312-324 | a logged-out close deletes folder, counter and entry and schedules nothing, whatever the counter |
| `LifecycleProperties.ClosedSessionCanRestart` | index.js:454-460 | after `closeSession`, a transient close of the old socket schedules a restart, because `closeSession` cancels nothing |
| `LifecycleProperties.SpentBudgetClose` | index.js:330-335 | a transient close with the counter at `MAX_RETRIES` deletes folder, counter and entry and schedules nothing |
| `LifecycleProperties.StartSchedulesPairing` | index.js:155-159 | starting an unregistered session that is not live makes its folder and schedules its pairing request |
| `LifecycleProperties.PairingWritesCode` | index.js:188-205 | a pairing request that gets a code writes `pairing.json` and leaves both maps alone |
| `LifecycleProperties.TransientCloseSchedulesRestart` | index.js:326-343 | the first transient close keeps the folder, drops the entry and schedules a restart |
| `LifecycleProperties.RestartSchedulesPairing` | index.js:340-343 | a restart of an unregistered session keeps the folder and schedules a new pairing request |
| `LifecycleProperties.PairingFailureWritesError` | index.js:225-241 | a failed pairing request writes `error.json` and leaves `pairing.json` as it was |
| `LifecycleProperties.BothStatusFilesReachable` | index.js:194-241 | a folder can hold `pairing.json` and `error.json` at once |
| `LifecycleProperties.CleanupIdempotent` | index.js:474-497 | a second sweep at the same moment removes nothing more |
| `LifecycleProperties.DefaultCleanupThreshold` | index.js:474-487 | with the default 24 hours a folder is kept exactly when its age is at most 86 400 000 ms |
| `LifecycleProperties.CleanupIgnoresLiveSessions` | index.js:478-496 | which folders the sweep keeps does not depend on `activeSessions` |
| `CodeWait.Settle` | server.js:85-97 | only the first settlement of a promise takes effect |
| `CodeWait.Callback` | server.js:86-89 | the callback records the code, even `null`, and resolves a waiting promise with it |
| `CodeWait.Timeout` | server.js:92-96 | the timer rejects only a waiting promise with no truthy code recorded |
| `CodeWait.ApplyPreservesInv` | server.js:84-97 | a recorded code always means the promise has settled |
| `CodeWait.TimeoutSettles` | server.js:92-96 | after the timer fires the wait is never pending |
| `CodeWait.SettledIsFinal` | server.js:85-97 | a settled wait keeps its outcome whatever signals follow |
| `CodeWait.FirstSignalDecides` | server.js:85-97 | the first signal decides the outcome: a callback resolves with its value and the timer rejects |
| `PairServer.Init` | server.js:32-35 | the empty registry and pending map are consistent |
| `PairServer.Pair` | server.js:49-97 | a refused number is answered at once and changes nothing. Otherwise the id is `session_<digits>_<now>`, a `generating_code` entry stamped `now` is stored, a callback is registered, and a fresh wait starts |
| `PairServer.StartFails` | server.js:100-103 | a failed start drops only the pending entry |
| `PairServer.PairThenStartFails` | server.js:77-137 | after a failed start the session reads 404 while its callback stays registered, and the timer answers the waiting request with 500 |
| `PairServer.CodeArrives` | server.js:105-126 | with no registered callback nothing happens. A waiting request is answered with its code, its entry becomes `awaiting_link` with that code and a new timestamp, and its callback is removed. A settled request is not answered again |
| `PairServer.CodeTimesOut` | server.js:128-137 | a request still waiting with no code gets 500, and its pending entry and callback are removed; for a settled request the timer gets no answer and the whole state, stored outcome included, is unchanged |
| `PairServer.Lookup` | server.js:152-181 | a live session reads `connected`; otherwise a pending one reads its stored entry; otherwise 404 |
| `PairServer.Sweep` | server.js:241-256 | exactly the entries with `now - timestamp > 600000` are removed and the rest kept; deletion is asked for exactly the removed ones that are not live |
| `PairServer.PairPreservesInv` | server.js:77-97 | callbacks are registered exactly for the requests still waiting |
| `PairServer.CodeArrivesPreservesInv` | server.js:107-118 | that registry invariant survives a callback |
| `PairServer.CodeTimesOutPreservesInv` | server.js:128-132 | that registry invariant survives the timer |
| `PairServer.SettledRequestIsSilent` | server.js:85-137 | once a request's wait has settled, neither callback nor timer produces another answer |
| `PairServer.TimerSettlesRequest` | server.js:91-97 | after its timer a request is settled and has no callback |
| `PairServer.PairThenCode` | server.js:49-126 | a valid request whose code arrives first is answered 200 with `session_<digits>_<now>` and the code, and then reads `awaiting_link` with that code |
| `PairServer.PairThenTimeout` | server.js:49-137 | a valid request whose timer fires first is answered 500 and then reads 404 unless live |
| `PairServer.RefusedPairChangesNothing` | server.js:53-69 | a refused number leaves no pending entry and no callback |
| `PairServer.SweepIdempotent` | server.js:241-256 | a second sweep at the same moment removes nothing more |
| `Gateway.Pair` | app.js:31-97 | a refused number changes nothing. At 50 or more the answer is 429 with limit 50 and current size, and nothing changes. Below that, only a successful start adds an `active` entry under the new id; a failed one answers 500 and leaves the map as it was |
| `Gateway.Sessions` | app.js:100-114 | one row per entry, in the map's insertion order, with the entry's number and creation time; `count` is the map size and `limit` is 50 |
| `Gateway.Remove` | app.js:117-154 | an unknown id gets 404 and nothing changes; a known one loses exactly its entry and its folder, gets 200, and nothing else changes |
| `Gateway.PairKeepsCap` | app.js:52-74 | handled one at a time, requests never take the map past 50 |
| `Gateway.RemoveKeepsCap` | app.js:117-146 | deleting keeps the map within the cap |
| `Gateway.FullGatewayRefuses` | app.js:52-60 | with 50 entries a valid request gets 429 with `current: 50`, and the map keeps 50 entries |
| `Gateway.SuccessfulPairAddsOne` | app.js:66-81 | below the cap, a successful start under a new id adds exactly one entry, which holds the number, the socket and the time |
| `Gateway.RemoveThenNotFound` | app.js:117-146 | deleting a known session answers 200, and deleting it again answers 404 |

## Behaviour as written

The model follows the code where a tidier description of the system would
differ:
- **Status files can coexist.** `pairing.json` and `error.json` are not
  exclusive. A restart whose pairing request fails writes `error.json` next to
  an earlier `pairing.json` (`BothStatusFilesReachable`).
- **Abandonment takes four closes.** Starting from a fresh counter, a session
  is abandoned on the fourth consecutive transient close, after three
  restarts, not on the third (`ConnectedSessionSurvivesThreeCloses`,
  `RestartsBetweenClosesExhaustBudget`).
- **Deletion cancels nothing.** Neither `closeSession` nor `DELETE` cancels a
  scheduled restart, and nothing checks the session before a restart runs. A
  transient close after `closeSession` starts a fresh budget
  (`ClosedSessionCanRestart`).
- **A `null` code is a success.** The server's callback resolves on its first
  call even with `null`, so a failed code request reported as
  `(null, message)` is answered 200 with `code: null`.
- **Stale entries count toward the cap.** app.js never removes an entry when
  its socket closes. Dead sessions keep counting toward the 50-session cap
  until they are deleted.
- **Only a lower bound on the number.** The number checks are "present" and
  "at least 10 digits after cleaning". There is no upper bound and no
  leading-zero rule.

## Left out

- The WhatsApp socket library: `makeWASocket`, `fetchLatestBaileysVersion`, `useMultiFileAuthState`, `requestPairingCode`, `sendMessage` and `newsletterFollow` are foreign calls. Their results are inputs (`Setup`, `CodeRequest`, connection events). The newsletter follow and the messages sent to the user have no effect on the modelled state.
- The phone-number library's `isValid` is the boolean input `valid`.
- The session module server.js imports is not part of this model. `isSessionActive`, `getSessionInfo`, `deleteSession`, `getAllSessions` and its `startBotSession` appear as inputs or outputs, and the fields `getSessionInfo` spreads into the lookup answer are not modelled. For the same reason, server.js's `/api/sessions`, `DELETE /api/session/:sessionId` and `/api/health`, and app.js's `/api/health`, are not modelled.
- `getSession` in index.js is a plain map read and has no member of its own.
- Express middleware, static files, `listen` and the SIGINT shutdown are I/O.
- Real time: the 3 s, 5 s, 15 s, hourly and five-minute delays are not measured. A scheduled timer may fire at any later step, and the clock is a `now` argument. Where a handler reads `Date.now()` twice (server.js:72 and 80, app.js:62 and 72), the model uses one reading.
- Concurrency: events are handled one at a time. Two checks are treated as atomic with what follows them, although the source awaits in between: the cap check at app.js:53 with the insertion at app.js:69, and the duplicate check at index.js:82 with the insertion at index.js:381.
- Requests for the same number within the same millisecond share an id. The model keeps one wait per id, so the per-request timers of such colliding requests are not told apart.
- The temp-folder cleaner, `startup-error.json`, `messages.json`, `decodeJid`, and the message, group and status handlers of `main.js`.
- JSON serialisation and `Date` formatting: times are integer milliseconds, and `error.json`'s `stack` field is not kept.
- A pairing request whose folder has gone throws from its `catch` block. The model records that nothing is written and no callback runs. The process-level effect of the unhandled rejection is not modelled.
- The raw pairing code is taken to be a string. The `code?.` guard for `null` is not exercised.
- Strings are sequences of Unicode scalar values, while the source's regular expressions count UTF-16 code units. The two differ only for characters outside the Basic Multilingual Plane.
- A folder's modification time is set when the folder is made and when a status file is first created in it. The socket library's credential writes appear as the `FolderTouched` event.
- PairServer.Lookup: the answer for a live session is `connected` with the asked id. In the source, the fields of `getSessionInfo` are spread after `status` and `sessionId` (server.js:158-163) and could override them. That module is not part of this model.
- Gateway.Remove: the process is assumed to run from the app directory. Then app.js:136's `path.join(__dirname, 'sessions', id)` and index.js:88's relative `./sessions/<id>` name the same folder. Started from elsewhere, they name different folders.
- Failures of `ws.close()` and of `rmSync` (the `{ success: false }` return at index.js:465-467 and the 500 answer at app.js:147-153) are not modelled.
