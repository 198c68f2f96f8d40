# IssueLog: the connection issue log of node-memcached, in Dafny

`lib/connection.js` keeps, for every memcached server a client talks to, an `IssueLog`:
a small state machine that records failures of that connection and chooses between two
ways of handling them. While `retries` is non-zero a failure schedules `attemptRetry`
(bounded retry mode: the owner re-issues its operation after `retry` ms). Otherwise the
failure optionally emits `remove` and schedules `attemptReconnect`, which probes the server
and reschedules itself after `reconnect` ms until the probe succeeds (unbounded reconnect
mode). The log keeps cumulative totals, derives a `details` snapshot for every event, and
after a successful reconnect copies its construction configuration back so that the next
failure episode starts with the original retry budget.

This project models that object as an immutable record with pure transitions:

- `wrappers.dfy` — `Option`, for configuration fields a caller may leave out.
- `connection.dfy` (module `Connection`) — the configuration, live settings, state,
  details snapshot and effects; `Construct`, `Log`, `GetDetails`, `AttemptRetry`, and
  `attemptReconnect` split in two: `ReconnectStart` (the attempt is counted, `reconnecting`
  emitted, the probe started) and `ReconnectResult` (the probe's callback). Each
  transition returns the next state and the ordered list of effects: `Emit(event, details)`,
  `ScheduleRetry(delay)`, `ScheduleReconnect(delay)` and `Ping(host, port)`.
- `connection_lemmas.dfy` (module `ConnectionLemmas`) — properties of single transitions:
  the effect counts of each mode, the order of `remove` before the reconnect timer, the
  snapshot each event carries, and that restoring the configuration gives the settings of
  a fresh log.
- `scheduler.dfy` (module `Scheduler`) — the log driven by its environment. Scheduled
  timers and started probes become pending counts; a step is the owner's `log`, a pending
  timer firing or a pending probe answering, in any sequential order, so stacked timers
  are included. An invariant of every reachable machine ties the totals to the effects
  produced so far (every retry timer came with an `issue` event and has fired or is
  pending; every reconnect timer has fired as a counted attempt or is pending; one
  `reconnected` event per success), and the reconnect loop is proved for any number of
  failed probes followed by a success.
- `scenarios.dfy` (module `Scenarios`) — concrete runs: a budget of two retries spent and
  then the reconnect branch, and two failures stacked on a budget of one retry.

Three facts about the code as written that the model keeps:

- The mode test is JavaScript truthiness (`lib/connection.js:44`, `:70`), not
  `retries > 0`, modelled as `retries != 0` (`Connection.InRetryMode`). On a budget of
  one retry, two failures logged before the first timer fires schedule two retries, both
  fire, and `retries` reaches -1 (`Scenarios.StackedRetriesGoNegative`). From then on every failure is retried, `retries` only decreases, and the reconnect
  branch, with its `remove` event, is never taken again (`Scheduler.StuckInRetryMode`,
  `Scenarios.StackedRetriesNeverReconnect`).
- `attemptRetry` sets `failed = false` while the failure's message stays recorded
  (`ConnectionLemmas.RetryClearsFailedButKeepsMessages`), so "`failed` whenever messages
  are non-empty" does not hold; what holds is the converse, `failed` implies a recorded
  message, part of `Scheduler.Inv`.
- The restore after a reconnect copies back only the fields the configuration supplied
  (`Utils.merge`, line 110), not every live field; on reachable states the unsupplied
  fields never left their initial values, so the result equals a fresh construction
  (`Scheduler.RecoveryRestoresConstruction`).

## Model

| member | source | states |
|---|---|---|
| Connection.MessageOr | lib/connection.js:42 | a recorded message is never empty: an empty message is replaced by the placeholder, any other is kept |
| Connection.InRetryMode | lib/connection.js:44 | the mode test is truthiness: a positive or a negative `retries` selects retry mode, only 0 selects reconnect mode |
| Connection.Merge | lib/connection.js:110 | every field the configuration supplies is taken, every field it leaves out keeps its live value |
| Connection.Construct | lib/connection.js:22-32 | a new log is healthy, has no messages and zero totals, keeps the configuration as its snapshot, takes every supplied field (server address, tokens, retries, retry, reconnect, remove) and defaults `retry` (and an absent `retries`) to 0 |
| Connection.GetDetails | lib/connection.js:62-81 | details always carry server, tokens and messages; they carry the retry fields exactly when `retries` is non-zero, otherwise the reconnect fields, with failed = attempted - success and down time = failed * reconnect + totalRetries * retry |
| Connection.Log | lib/connection.js:38-60 | a failure sets `failed`, appends exactly one message and changes no total or setting; in retry mode it schedules a retry after `retry` then emits `issue`, otherwise it emits `remove` only when set and then schedules a reconnect after `reconnect` |
| Connection.AttemptRetry | lib/connection.js:84-88 | a retry adds exactly one to `totalRetries`, removes exactly one from `retries`, clears `failed` and changes nothing else |
| Connection.ReconnectStart | lib/connection.js:90-96 | an attempt adds one to the attempts, changes nothing else, emits `reconnecting` with details that include it and starts a probe of the tokens' host and port |
| Connection.ReconnectResult | lib/connection.js:96-111 | a failed probe appends exactly one message and schedules another reconnect, touching nothing else; a successful one emits `reconnected` with the details before the reset, then counts the success, clears messages and `failed`, and copies the configuration back, keeping the other totals |
| ConnectionLemmas.LogInRetryMode | lib/connection.js:44-49 | in retry mode a failure produces exactly one retry timer, with delay `retry`, exactly one `issue` event carrying `retries` and `totalRetries`, no `remove` and no reconnect timer |
| ConnectionLemmas.LogInReconnectMode | lib/connection.js:52-59 | in reconnect mode a failure emits `remove` if and only if `remove` is set, schedules exactly one reconnect timer with delay `reconnect` as its last effect after any event, and produces no `issue` and no retry timer |
| ConnectionLemmas.NegativeRetriesKeepRetryMode | lib/connection.js:44-45 | a negative `retries` still selects retry mode, and the retry it schedules leaves `retries` negative |
| ConnectionLemmas.RetryClearsFailedButKeepsMessages | lib/connection.js:84-88 | after a failure and its retry the log is not `failed` although the failure's message is still recorded |
| ConnectionLemmas.ReconnectingReportsTheAttempt | lib/connection.js:92-93 | the `reconnecting` event's details already count the attempt being started |
| ConnectionLemmas.ReconnectedReportsBeforeReset | lib/connection.js:103-106 | the `reconnected` event carries the old messages and the success total before the increment, which the next state has |
| ConnectionLemmas.UnreachableRecordsOneMessage | lib/connection.js:98-100 | a failed probe keeps the old messages, appends exactly its own message or the placeholder, keeps totals, settings and `failed`, and schedules one reconnect |
| ConnectionLemmas.TransitionsNeverDecreaseTotals | lib/connection.js:84-111 | no transition decreases any of the three totals |
| ConnectionLemmas.RestoreGivesConstructedSettings | lib/connection.js:110 | copying the configuration back over settings whose unsupplied fields are unchanged gives the settings of a fresh log, and copying twice is copying once |
| ConnectionLemmas.DownTimeExample | lib/connection.js:74-77 | with 5 attempts, 3 successes, reconnect 1000, 2 retries and retry 500 the details report 2 failed reconnects and a down time of 3000 |
| ConnectionLemmas.DownTimeNonNegative | lib/connection.js:76-77 | with non-negative intervals and no more successes than attempts, failed reconnects and down time are never negative |
| Scheduler.Next | lib/connection.js:45-59 | any step of the log, timer or probe keeps the configuration snapshot, never decreases a total and only appends to the effects produced |
| Scheduler.LogStep | lib/connection.js:44-59 | a failure leaves one more retry timer pending in retry mode and one more reconnect timer pending otherwise |
| Scheduler.RetryStep | lib/connection.js:84-88 | a retry timer firing consumes that timer, applies the retry and produces no effect |
| Scheduler.ReconnectStep | lib/connection.js:90-96 | a reconnect timer firing consumes that timer, applies the attempt and leaves exactly one probe pending |
| Scheduler.ProbeStep | lib/connection.js:96-111 | a probe answering consumes that probe, applies its result, and leaves another reconnect timer pending exactly when the probe failed |
| Scheduler.InitInv | lib/connection.js:22-32 | a freshly constructed log with nothing pending satisfies the invariant |
| Scheduler.NextInv | lib/connection.js:38-111 | every step preserves the invariant: only `retries` departs from the constructed settings, `failed` implies a recorded message, issue events match retry timers, timers are fired or pending, one `reconnecting` event and one probe per attempt, one `reconnected` per success |
| Scheduler.RunInv | lib/connection.js:38-111 | the invariant holds after any run of steps from a state that satisfies it |
| Scheduler.ReachableInv | lib/connection.js:22-111 | every state reachable from construction satisfies the invariant |
| Scheduler.RunTotalsGrow | lib/connection.js:84-111 | along any run the totals never decrease, the snapshot is kept and the effects only grow |
| Scheduler.RecoveryRestoresConstruction | lib/connection.js:103-110 | in a reachable state a successful probe restores exactly the settings of a fresh log while `totalRetries` and the attempts keep their values, the successes grow by one and messages are cleared |
| Scheduler.FailedReconnectsNotNegative | lib/connection.js:76 | in a reachable state the reported failed reconnects are at least the probes still in flight, so never negative |
| Scheduler.FailedAttempt | lib/connection.js:90-100 | a reconnect timer firing and its probe failing count one attempt, record one message, emit one `reconnecting` event and leave a reconnect timer pending again |
| Scheduler.SucceededAttempt | lib/connection.js:90-111 | a reconnect timer firing and its probe succeeding count one attempt and one success, clear messages and `failed`, and end with one `reconnected` event carrying the old messages |
| Scheduler.FailingAttemptsLoop | lib/connection.js:96-100 | N failing probes add N attempts and the N recorded messages, emit N `reconnecting` events and no `reconnected`, and change nothing else |
| Scheduler.ReconnectLoopRecovers | lib/connection.js:90-111 | N failing probes then a successful one add N+1 attempts and one success, emit exactly one `reconnected` event carrying every message of the episode, and leave no messages |
| Scheduler.StuckInRetryMode | lib/connection.js:44-88 | once `retries` is negative with no reconnect pending, every run keeps it negative and never schedules a reconnect or emits `remove` or `reconnected` |
| Scenarios.InitIsFresh | lib/connection.js:22-32 | construction with a budget, intervals and flag gives those settings, zero retries and nothing pending |
| Scenarios.RetryBudgetThenReconnect | lib/connection.js:38-88 | with two retries of 100 ms, each failure emits `issue` and keeps `retries` until its timer fires; after two retries the budget is 0 and the next failure schedules a reconnect |
| Scenarios.StackedRetriesGoNegative | lib/connection.js:86 | two failures logged on a budget of one retry before either timer fires drive `retries` to -1 |
| Scenarios.StackedRetriesNeverReconnect | lib/connection.js:44-59 | after those stacked retries no continuation schedules a reconnect or emits `remove`, although `remove` is set |

## Left out

- `ping` (`lib/connection.js:11-20`): the TCP connect is I/O; its outcome is an input to `ReconnectResult` (`Reachable` or `Unreachable(message)`), and starting it is the `Ping` effect.
- `setTimeout` and `domain.active.remove`: real timers and error-domain detachment are represented by the `ScheduleRetry` and `ScheduleReconnect` effects and by the scheduler's pending counts; there is no clock, and delays are only recorded.
- EventEmitter dispatch and listeners: events are entries in the effect list; the boolean `log` returns from `emit` in retry mode is not modelled.
- `Utils.merge` (its file is not part of this model) is modelled by `Merge` under the assumption that it copies every field the configuration supplies onto the instance and keeps the others, and that the configuration to hold only `serverAddress`, `tokens`, `retries`, `retry`, `reconnect` and `remove`. The `JSON` deep copy is unnecessary for immutable values.
- Absent configuration fields: JavaScript leaves them `undefined`; the model gives `retries` 0 (as falsy), `remove` false, and `serverAddress`, `tokens` and `reconnect` the values "", ("", "") and 0, so the `NaN` down time and the near-zero timer an undefined `reconnect` would give are not modelled.
- Messages are strings, and "falsy" is the empty string; other falsy JavaScript values (`undefined`, `null`, `0`) passed to `log` or found in `err.message` are not distinguished.
- `details.messages` aliases the live array in JavaScript, so a listener that keeps a snapshot sees later pushes; the model's snapshots are values.
- Timers: several pending timers fire in some sequential order chosen by the run; real concurrent interleaving beyond that is not modelled.
- Integer width: counters and intervals are unbounded integers; JavaScript's double precision limits are not modelled.
- Fractional configuration numbers: `retries`, `retry` and `reconnect` are JavaScript numbers, and a fractional `retries` such as 1.5 never reaches 0 by decrements, so it stays truthy for ever; the model admits only integers.
- Absent `tokens`: `attemptReconnect` reads `this.tokens[1]` (`lib/connection.js:96`), which throws a TypeError when no tokens were supplied; the model instead probes the unset tokens ("", "").
- Double probe answers: `ping`'s callback can run twice, once on connect and again on a later socket `error` (`lib/connection.js:12-19`); the scheduler consumes exactly one answer per probe started, and the invariant `totalReconnectsSuccess + pendingProbes <= totalReconnectsAttempted` depends on that.
