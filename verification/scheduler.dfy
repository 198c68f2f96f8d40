/**
 The issue log driven by its environment. Timers and probes started by a transition are
 kept as pending counts; a step is the owner reporting a failure, a pending timer firing,
 or a pending probe reporting back, applied one at a time in any order. Every effect ever
 produced is kept in `trace`, so that the totals can be related to the events and timers
 an observer has seen.
 */
module Scheduler {
  import opened Wrappers
  import opened Connection
  import opened ConnectionLemmas

  datatype Step =
    | OwnerLog(message: string)
    | FireRetry
    | FireReconnect
    | ProbeReturns(outcome: ProbeOutcome)

  datatype Machine = Machine(
    issue: IssueLog,
    pendingRetries: nat,
    pendingReconnects: nat,
    pendingProbes: nat,
    trace: seq<Effect>)

  function Init(c: Config): Machine {
    Machine(Construct(c), 0, 0, 0, [])
  }

  /** A timer can fire, and a probe report back, only when one is pending. */
  predicate Enabled(m: Machine, step: Step) {
    match step
    case OwnerLog(_) => true
    case FireRetry => m.pendingRetries > 0
    case FireReconnect => m.pendingReconnects > 0
    case ProbeReturns(_) => m.pendingProbes > 0
  }

  /** The issue-log transition a step triggers. */
  function StepTransition(s: IssueLog, step: Step): Transition {
    match step
    case OwnerLog(message) => Log(s, message)
    case FireRetry => Transition(AttemptRetry(s), [])
    case FireReconnect => ReconnectStart(s)
    case ProbeReturns(outcome) => ReconnectResult(s, outcome)
  }

  /** Removes the timer or probe that a step consumes. */
  function Consume(m: Machine, step: Step): Machine
    requires Enabled(m, step)
  {
    match step
    case OwnerLog(_) => m
    case FireRetry => m.(pendingRetries := m.pendingRetries - 1)
    case FireReconnect => m.(pendingReconnects := m.pendingReconnects - 1)
    case ProbeReturns(_) => m.(pendingProbes := m.pendingProbes - 1)
  }

  /** Installs the next state and adds the timers and probes the transition started. */
  function Absorb(m: Machine, t: Transition): Machine {
    Machine(
      t.next,
      m.pendingRetries + Count(t.effects, RetryTimerKind),
      m.pendingReconnects + Count(t.effects, ReconnectTimerKind),
      m.pendingProbes + Count(t.effects, PingKind),
      m.trace + t.effects)
  }

  /** One step. Totals never decrease, the construction snapshot is kept, and the
      trace only grows. */
  function Next(m: Machine, step: Step): (r: Machine)
    requires Enabled(m, step)
    ensures TotalsGrow(m.issue, r.issue)
    ensures r.issue.config == m.issue.config
    ensures |m.trace| <= |r.trace| && r.trace[..|m.trace|] == m.trace
  {
    var r := Absorb(Consume(m, step), StepTransition(m.issue, step));
    assert r.trace[..|m.trace|] == m.trace;
    r
  }

  /** How a step changes the pending counts and the counts of each kind in the trace. */
  lemma NextCounts(m: Machine, step: Step)
    requires Enabled(m, step)
    ensures var t := StepTransition(m.issue, step);
      && |t.effects| <= 2
      && (forall k :: Count(Next(m, step).trace, k) == Count(m.trace, k) + At(t.effects, 0, k) + At(t.effects, 1, k))
      && Next(m, step).pendingRetries
         == Consume(m, step).pendingRetries + At(t.effects, 0, RetryTimerKind) + At(t.effects, 1, RetryTimerKind)
      && Next(m, step).pendingReconnects
         == Consume(m, step).pendingReconnects + At(t.effects, 0, ReconnectTimerKind) + At(t.effects, 1, ReconnectTimerKind)
      && Next(m, step).pendingProbes
         == Consume(m, step).pendingProbes + At(t.effects, 0, PingKind) + At(t.effects, 1, PingKind)
  {
    var t := StepTransition(m.issue, step);
    CountShort(t.effects);
    forall k ensures Count(Next(m, step).trace, k) == Count(m.trace, k) + Count(t.effects, k) {
      CountAppend(m.trace, t.effects, k);
    }
  }

  /** A failure reported by the owner leaves one more retry timer pending in retry mode,
      and one more reconnect timer otherwise. */
  lemma LogStep(m: Machine, message: string)
    ensures var r := Next(m, OwnerLog(message));
      && r.issue == Log(m.issue, message).next
      && r.trace == m.trace + Log(m.issue, message).effects
      && r.pendingProbes == m.pendingProbes
      && (InRetryMode(m.issue) ==>
            r.pendingRetries == m.pendingRetries + 1 && r.pendingReconnects == m.pendingReconnects)
      && (!InRetryMode(m.issue) ==>
            r.pendingRetries == m.pendingRetries && r.pendingReconnects == m.pendingReconnects + 1)
  {
    CountShort(Log(m.issue, message).effects);
  }

  /** A retry timer firing consumes that timer and starts nothing. */
  lemma RetryStep(m: Machine)
    requires m.pendingRetries > 0
    ensures Next(m, FireRetry) == m.(issue := AttemptRetry(m.issue), pendingRetries := m.pendingRetries - 1)
  {
    assert m.trace + [] == m.trace;
  }

  /** A reconnect timer firing consumes that timer and leaves its probe pending. */
  lemma ReconnectStep(m: Machine)
    requires m.pendingReconnects > 0
    ensures var r := Next(m, FireReconnect);
      && r.issue == ReconnectStart(m.issue).next
      && r.trace == m.trace + ReconnectStart(m.issue).effects
      && r.pendingRetries == m.pendingRetries
      && r.pendingReconnects == m.pendingReconnects - 1
      && r.pendingProbes == m.pendingProbes + 1
  {
    CountShort(ReconnectStart(m.issue).effects);
  }

  /** A probe answering consumes that probe; a failed one leaves a reconnect timer pending. */
  lemma ProbeStep(m: Machine, outcome: ProbeOutcome)
    requires m.pendingProbes > 0
    ensures var r := Next(m, ProbeReturns(outcome));
      && r.issue == ReconnectResult(m.issue, outcome).next
      && r.trace == m.trace + ReconnectResult(m.issue, outcome).effects
      && r.pendingRetries == m.pendingRetries
      && r.pendingReconnects == m.pendingReconnects + (if outcome.Unreachable? then 1 else 0)
      && r.pendingProbes == m.pendingProbes - 1
  {
    CountShort(ReconnectResult(m.issue, outcome).effects);
  }

  /** Applies `steps` in order; `None` when one of them is not enabled. */
  function Run(m: Machine, steps: seq<Step>): Option<Machine>
    decreases |steps|
  {
    if |steps| == 0 then Some(m)
    else if Enabled(m, steps[0]) then Run(Next(m, steps[0]), steps[1..])
    else None
  }

  /** What holds of every machine reachable from construction. */
  ghost predicate Inv(m: Machine) {
    var s := m.issue;
    var constructed := Construct(s.config).settings;
    // only `retries` ever departs from the constructed settings
    && s.settings.(retries := constructed.retries) == constructed
    && (s.config.retries.None? ==> s.settings.retries == 0 && m.pendingRetries == 0)
    && (s.failed ==> |s.messages| > 0)
    // every retry timer scheduled came with an issue event, and has fired or is pending
    && Count(m.trace, EmitKind(Issue)) == Count(m.trace, RetryTimerKind)
    && Count(m.trace, RetryTimerKind) == s.totalRetries + m.pendingRetries
    // every reconnect timer scheduled has fired, as a counted attempt, or is pending
    && Count(m.trace, ReconnectTimerKind) == s.totalReconnectsAttempted + m.pendingReconnects
    && Count(m.trace, EmitKind(Reconnecting)) == s.totalReconnectsAttempted
    && Count(m.trace, PingKind) == s.totalReconnectsAttempted
    && Count(m.trace, EmitKind(Reconnected)) == s.totalReconnectsSuccess
    // a success answers a probe that has left the pending set
    && s.totalReconnectsSuccess + m.pendingProbes <= s.totalReconnectsAttempted
  }

  lemma InitInv(c: Config)
    ensures Inv(Init(c))
  {
  }

  lemma NextInv(m: Machine, step: Step)
    requires Inv(m) && Enabled(m, step)
    ensures Inv(Next(m, step))
  {
    match step
    case OwnerLog(message) => LogKeepsInv(m, message);
    case FireRetry => RetryKeepsInv(m);
    case FireReconnect => ReconnectKeepsInv(m);
    case ProbeReturns(outcome) => ProbeKeepsInv(m, outcome);
  }

  lemma LogKeepsInv(m: Machine, message: string)
    requires Inv(m)
    ensures Inv(Next(m, OwnerLog(message)))
  {
    var t := Log(m.issue, message);
    LogStep(m, message);
    CountShort(t.effects);
    CountsGrowBy(m.trace, t.effects);
    if InRetryMode(m.issue) {
      LogInRetryMode(m.issue, message);
    } else {
      LogInReconnectMode(m.issue, message);
    }
  }

  /** The counts the invariant tracks, after `effects` are appended to `trace`. */
  lemma CountsGrowBy(trace: seq<Effect>, effects: seq<Effect>)
    ensures Count(trace + effects, EmitKind(Issue)) == Count(trace, EmitKind(Issue)) + Count(effects, EmitKind(Issue))
    ensures Count(trace + effects, EmitKind(Reconnecting)) == Count(trace, EmitKind(Reconnecting)) + Count(effects, EmitKind(Reconnecting))
    ensures Count(trace + effects, EmitKind(Reconnected)) == Count(trace, EmitKind(Reconnected)) + Count(effects, EmitKind(Reconnected))
    ensures Count(trace + effects, RetryTimerKind) == Count(trace, RetryTimerKind) + Count(effects, RetryTimerKind)
    ensures Count(trace + effects, ReconnectTimerKind) == Count(trace, ReconnectTimerKind) + Count(effects, ReconnectTimerKind)
    ensures Count(trace + effects, PingKind) == Count(trace, PingKind) + Count(effects, PingKind)
  {
    CountAppend(trace, effects, EmitKind(Issue));
    CountAppend(trace, effects, EmitKind(Reconnecting));
    CountAppend(trace, effects, EmitKind(Reconnected));
    CountAppend(trace, effects, RetryTimerKind);
    CountAppend(trace, effects, ReconnectTimerKind);
    CountAppend(trace, effects, PingKind);
  }

  lemma RetryKeepsInv(m: Machine)
    requires Inv(m) && m.pendingRetries > 0
    ensures Inv(Next(m, FireRetry))
  {
    NextCounts(m, FireRetry);
  }

  lemma ReconnectKeepsInv(m: Machine)
    requires Inv(m) && m.pendingReconnects > 0
    ensures Inv(Next(m, FireReconnect))
  {
    NextCounts(m, FireReconnect);
  }

  lemma ProbeKeepsInv(m: Machine, outcome: ProbeOutcome)
    requires Inv(m) && m.pendingProbes > 0
    ensures Inv(Next(m, ProbeReturns(outcome)))
  {
    if outcome.Reachable? {
      RestoreGivesConstructedSettings(m.issue.settings, m.issue.config);
    }
    NextCounts(m, ProbeReturns(outcome));
  }

  lemma {:induction false} RunInv(m: Machine, steps: seq<Step>)
    requires Inv(m) && Run(m, steps).Some?
    ensures Inv(Run(m, steps).value)
    decreases |steps|
  {
    if |steps| > 0 {
      NextInv(m, steps[0]);
      RunInv(Next(m, steps[0]), steps[1..]);
    }
  }

  /** Every state reachable from construction satisfies the invariant. */
  lemma ReachableInv(c: Config, steps: seq<Step>)
    requires Run(Init(c), steps).Some?
    ensures Inv(Run(Init(c), steps).value)
  {
    InitInv(c);
    RunInv(Init(c), steps);
  }

  /** Totals never decrease along any run, and the trace only grows. */
  lemma {:induction false} RunTotalsGrow(m: Machine, steps: seq<Step>)
    requires Run(m, steps).Some?
    ensures TotalsGrow(m.issue, Run(m, steps).value.issue)
    ensures Run(m, steps).value.issue.config == m.issue.config
    ensures |m.trace| <= |Run(m, steps).value.trace|
    ensures Run(m, steps).value.trace[..|m.trace|] == m.trace
    decreases |steps|
  {
    if |steps| > 0 {
      var m1 := Next(m, steps[0]);
      RunTotalsGrow(m1, steps[1..]);
      var r := Run(m, steps).value;
      assert r.trace[..|m.trace|] == r.trace[..|m1.trace|][..|m.trace|];
    }
  }

  /** A successful probe in a reachable state restores the live settings to exactly those
      of a freshly constructed issue log, counts the success, and keeps the retry and
      attempt totals. */
  lemma RecoveryRestoresConstruction(m: Machine)
    requires Inv(m) && m.pendingProbes > 0
    ensures var r := Next(m, ProbeReturns(Reachable));
      && r.issue.settings == Construct(m.issue.config).settings
      && r.issue.totalRetries == m.issue.totalRetries
      && r.issue.totalReconnectsAttempted == m.issue.totalReconnectsAttempted
      && r.issue.totalReconnectsSuccess == m.issue.totalReconnectsSuccess + 1
      && r.issue.messages == [] && !r.issue.failed
  {
    RestoreGivesConstructedSettings(m.issue.settings, m.issue.config);
  }

  /** In a reachable state the reported failed reconnects are never negative: at least
      the probes still in flight count as not yet successful. */
  lemma FailedReconnectsNotNegative(m: Machine)
    requires Inv(m) && !InRetryMode(m.issue)
    ensures GetDetails(m.issue).stats.totalReconnectsFailed >= m.pendingProbes
  {
  }

  lemma {:induction false} RunAppend(m: Machine, a: seq<Step>, b: seq<Step>)
    ensures Run(m, a + b) == (if Run(m, a).Some? then Run(Run(m, a).value, b) else None)
    decreases |a|
  {
    if |a| == 0 {
      assert a + b == b;
    } else if Enabled(m, a[0]) {
      assert (a + b)[1..] == a[1..] + b;
      RunAppend(Next(m, a[0]), a[1..], b);
    }
  }

  /** The messages recorded for the given probe errors. */
  function Recorded(errors: seq<string>): seq<string> {
    if |errors| == 0 then [] else [MessageOr(errors[0])] + Recorded(errors[1..])
  }

  /** One reconnect timer firing and its probe failing with each error in turn. */
  function FailingAttempts(errors: seq<string>): seq<Step> {
    if |errors| == 0 then []
    else [FireReconnect, ProbeReturns(Unreachable(errors[0]))] + FailingAttempts(errors[1..])
  }

  /** The full reconnect loop: failing attempts, then one whose probe succeeds. */
  function ReconnectLoop(errors: seq<string>): seq<Step> {
    FailingAttempts(errors) + [FireReconnect, ProbeReturns(Reachable)]
  }

  /** A reconnect timer firing and its probe answering with `outcome`. */
  function Attempt(m: Machine, outcome: ProbeOutcome): Machine
    requires m.pendingReconnects > 0
  {
    ReconnectStep(m);
    Next(Next(m, FireReconnect), ProbeReturns(outcome))
  }

  lemma RunAttempt(m: Machine, outcome: ProbeOutcome, rest: seq<Step>)
    requires m.pendingReconnects > 0
    ensures Run(m, [FireReconnect, ProbeReturns(outcome)] + rest) == Run(Attempt(m, outcome), rest)
  {
    ReconnectStep(m);
    var steps := [FireReconnect, ProbeReturns(outcome)] + rest;
    assert steps[1..] == [ProbeReturns(outcome)] + rest;
    assert steps[1..][1..] == rest;
  }

  /** One reconnect timer firing and its probe failing with `error`. */
  lemma FailedAttempt(m: Machine, error: string)
    requires m.pendingReconnects > 0
    ensures var r := Attempt(m, Unreachable(error));
      && r.issue == m.issue.(totalReconnectsAttempted := m.issue.totalReconnectsAttempted + 1,
                             messages := m.issue.messages + [MessageOr(error)])
      && r.pendingRetries == m.pendingRetries
      && r.pendingReconnects == m.pendingReconnects
      && r.pendingProbes == m.pendingProbes
      && Count(r.trace, EmitKind(Reconnecting)) == Count(m.trace, EmitKind(Reconnecting)) + 1
      && Count(r.trace, EmitKind(Reconnected)) == Count(m.trace, EmitKind(Reconnected))
  {
    ReconnectStep(m);
    var m1 := Next(m, FireReconnect);
    ProbeStep(m1, Unreachable(error));
    var e1 := ReconnectStart(m.issue).effects;
    var e2 := ReconnectResult(m1.issue, Unreachable(error)).effects;
    CountAppend(m.trace, e1, EmitKind(Reconnecting));
    CountAppend(m.trace, e1, EmitKind(Reconnected));
    CountAppend(m1.trace, e2, EmitKind(Reconnecting));
    CountAppend(m1.trace, e2, EmitKind(Reconnected));
    CountShort(e1);
    CountShort(e2);
  }

  /** One reconnect timer firing and its probe succeeding. */
  lemma SucceededAttempt(m: Machine)
    requires m.pendingReconnects > 0
    ensures var r := Attempt(m, Reachable);
      && r.issue.totalReconnectsAttempted == m.issue.totalReconnectsAttempted + 1
      && r.issue.totalReconnectsSuccess == m.issue.totalReconnectsSuccess + 1
      && r.issue.totalRetries == m.issue.totalRetries
      && r.issue.messages == [] && !r.issue.failed
      && Count(r.trace, EmitKind(Reconnecting)) == Count(m.trace, EmitKind(Reconnecting)) + 1
      && Count(r.trace, EmitKind(Reconnected)) == Count(m.trace, EmitKind(Reconnected)) + 1
      && r.trace[|r.trace| - 1].Emit? && r.trace[|r.trace| - 1].event == Reconnected
      && r.trace[|r.trace| - 1].details.messages == m.issue.messages
  {
    ReconnectStep(m);
    var m1 := Next(m, FireReconnect);
    ProbeStep(m1, Reachable);
    var e1 := ReconnectStart(m.issue).effects;
    var e2 := ReconnectResult(m1.issue, Reachable).effects;
    CountAppend(m.trace, e1, EmitKind(Reconnecting));
    CountAppend(m.trace, e1, EmitKind(Reconnected));
    CountAppend(m1.trace, e2, EmitKind(Reconnecting));
    CountAppend(m1.trace, e2, EmitKind(Reconnected));
    CountShort(e1);
    CountShort(e2);
  }

  /** The issue log after a failed probe for each of `errors`. */
  function AfterFailures(s: IssueLog, errors: seq<string>): IssueLog {
    s.(totalReconnectsAttempted := s.totalReconnectsAttempted + |errors|,
       messages := s.messages + Recorded(errors))
  }

  lemma AfterFailuresStep(s: IssueLog, errors: seq<string>)
    requires |errors| > 0
    ensures AfterFailures(s, errors)
         == AfterFailures(s.(totalReconnectsAttempted := s.totalReconnectsAttempted + 1,
                             messages := s.messages + [MessageOr(errors[0])]), errors[1..])
  {
    assert s.messages + Recorded(errors) == (s.messages + [MessageOr(errors[0])]) + Recorded(errors[1..]);
  }

  /** Each failing attempt counts one attempt, records one message, emits one
      `reconnecting` event and leaves a reconnect timer pending again. */
  lemma {:induction false} FailingAttemptsLoop(m: Machine, errors: seq<string>)
    requires m.pendingReconnects > 0
    ensures Run(m, FailingAttempts(errors)).Some?
    ensures var r := Run(m, FailingAttempts(errors)).value;
      && r.issue == AfterFailures(m.issue, errors)
      && r.pendingRetries == m.pendingRetries
      && r.pendingReconnects == m.pendingReconnects
      && r.pendingProbes == m.pendingProbes
      && Count(r.trace, EmitKind(Reconnecting)) == Count(m.trace, EmitKind(Reconnecting)) + |errors|
      && Count(r.trace, EmitKind(Reconnected)) == Count(m.trace, EmitKind(Reconnected))
    decreases |errors|
  {
    if |errors| > 0 {
      var rest := errors[1..];
      RunAttempt(m, Unreachable(errors[0]), FailingAttempts(rest));
      FailedAttempt(m, errors[0]);
      FailingAttemptsLoop(Attempt(m, Unreachable(errors[0])), rest);
      AfterFailuresStep(m.issue, errors);
    }
  }

  /** A probe that fails once per error and then succeeds: the attempts grow by one more
      than the errors, exactly one `reconnected` event is emitted, carrying every message
      recorded in the episode, the success is counted once and the messages are cleared. */
  lemma ReconnectLoopRecovers(m: Machine, errors: seq<string>)
    requires m.pendingReconnects > 0
    ensures Run(m, ReconnectLoop(errors)).Some?
    ensures var r := Run(m, ReconnectLoop(errors)).value;
      && r.issue.totalReconnectsAttempted == m.issue.totalReconnectsAttempted + |errors| + 1
      && r.issue.totalReconnectsSuccess == m.issue.totalReconnectsSuccess + 1
      && r.issue.totalRetries == m.issue.totalRetries
      && r.issue.messages == [] && !r.issue.failed
      && Count(r.trace, EmitKind(Reconnecting)) == Count(m.trace, EmitKind(Reconnecting)) + |errors| + 1
      && Count(r.trace, EmitKind(Reconnected)) == Count(m.trace, EmitKind(Reconnected)) + 1
      && r.trace[|r.trace| - 1].Emit? && r.trace[|r.trace| - 1].event == Reconnected
      && r.trace[|r.trace| - 1].details.messages == m.issue.messages + Recorded(errors)
  {
    FailingAttemptsLoop(m, errors);
    var m0 := Run(m, FailingAttempts(errors)).value;
    RunAppend(m, FailingAttempts(errors), [FireReconnect, ProbeReturns(Reachable)]);
    RunAttempt(m0, Reachable, []);
    assert [FireReconnect, ProbeReturns(Reachable)] + [] == [FireReconnect, ProbeReturns(Reachable)];
    SucceededAttempt(m0);
  }

  /** Once `retries` is negative with no reconnect timer or probe pending, no run ever
      leaves retry mode: `retries` stays negative, and no reconnect timer, `remove` or
      `reconnected` event is ever produced. */
  lemma {:induction false} StuckInRetryMode(m: Machine, steps: seq<Step>)
    requires m.issue.settings.retries < 0 && m.pendingReconnects == 0 && m.pendingProbes == 0
    requires Run(m, steps).Some?
    ensures var r := Run(m, steps).value;
      && r.issue.settings.retries < 0 && r.pendingReconnects == 0 && r.pendingProbes == 0
      && Count(r.trace, ReconnectTimerKind) == Count(m.trace, ReconnectTimerKind)
      && Count(r.trace, EmitKind(Remove)) == Count(m.trace, EmitKind(Remove))
      && Count(r.trace, EmitKind(Reconnected)) == Count(m.trace, EmitKind(Reconnected))
    decreases |steps|
  {
    if |steps| > 0 {
      NextCounts(m, steps[0]);
      StuckInRetryMode(Next(m, steps[0]), steps[1..]);
    }
  }
}
