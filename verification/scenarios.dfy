/** Concrete runs of the issue log. */
module Scenarios {
  import opened Wrappers
  import opened Connection
  import opened Scheduler

  /** A machine in the state a construction with the given budget and intervals leaves. */
  predicate Fresh(m: Machine, retries: int, retry: int, reconnect: int, remove: bool) {
    && m.issue.settings.retries == retries
    && m.issue.settings.retry == retry
    && m.issue.settings.reconnect == reconnect
    && m.issue.settings.remove == remove
    && m.issue.totalRetries == 0
    && m.pendingRetries == 0 && m.pendingReconnects == 0 && m.pendingProbes == 0
  }

  lemma InitIsFresh(retries: int, retry: int, reconnect: int, remove: bool)
    ensures Fresh(Init(Config(None, None, Some(retries), Some(retry), Some(reconnect), Some(remove))),
                  retries, retry, reconnect, remove)
  {
  }

  /** Two retries of 100 ms: each failure schedules a retry and reports an issue, each
      retry spends one of the budget, and once it is spent the next failure takes the
      reconnect branch. */
  lemma RetryBudgetThenReconnect(m0: Machine)
    requires Fresh(m0, 2, 100, 1000, false)
    ensures var m1 := Next(m0, OwnerLog("a"));
      var m2 := Next(m1, FireRetry);
      var m3 := Next(m2, OwnerLog("b"));
      var m4 := Next(m3, FireRetry);
      var m5 := Next(m4, OwnerLog("c"));
      && m1.issue.settings.retries == 2 && m1.pendingRetries == 1 && m1.issue.failed
      && m1.trace[|m1.trace| - 1].Emit? && m1.trace[|m1.trace| - 1].event == Issue
      && m2.issue.settings.retries == 1 && m2.issue.totalRetries == 1 && !m2.issue.failed
      && m3.issue.settings.retries == 1 && m3.pendingRetries == 1 && m3.issue.failed
      && m3.trace[|m3.trace| - 1].Emit? && m3.trace[|m3.trace| - 1].event == Issue
      && m4.issue.settings.retries == 0 && m4.issue.totalRetries == 2 && m4.pendingRetries == 0
      && m5.pendingReconnects == 1 && m5.pendingRetries == 0
      && m5.trace[|m5.trace| - 1] == ScheduleReconnect(1000)
  {
    LogStep(m0, "a");
    var m1 := Next(m0, OwnerLog("a"));
    RetryStep(m1);
    var m2 := Next(m1, FireRetry);
    LogStep(m2, "b");
    var m3 := Next(m2, OwnerLog("b"));
    RetryStep(m3);
    var m4 := Next(m3, FireRetry);
    LogStep(m4, "c");
  }

  /** The state after a budget of one retry is hit by two failures before the first
      retry fires, and both retry timers then fire. */
  function Stacked(m0: Machine): Machine
    requires Fresh(m0, 1, 100, 1000, true)
  {
    LogStep(m0, "a");
    LogStep(Next(m0, OwnerLog("a")), "b");
    RetryStep(Next(Next(m0, OwnerLog("a")), OwnerLog("b")));
    Next(Next(Next(Next(m0, OwnerLog("a")), OwnerLog("b")), FireRetry), FireRetry)
  }

  lemma StackedRetriesGoNegative(m0: Machine)
    requires Fresh(m0, 1, 100, 1000, true)
    ensures Stacked(m0).issue.settings.retries == -1
    ensures Stacked(m0).pendingRetries == 0
    ensures Stacked(m0).pendingReconnects == 0 && Stacked(m0).pendingProbes == 0
  {
    LogStep(m0, "a");
    var m1 := Next(m0, OwnerLog("a"));
    LogStep(m1, "b");
    var m2 := Next(m1, OwnerLog("b"));
    RetryStep(m2);
    RetryStep(Next(m2, FireRetry));
  }

  /** After the stacked retries, no continuation ever schedules a reconnect timer or
      emits `remove`, although `remove` is configured: the connection retries forever. */
  lemma StackedRetriesNeverReconnect(m0: Machine, steps: seq<Step>)
    requires Fresh(m0, 1, 100, 1000, true)
    requires Run(Stacked(m0), steps).Some?
    ensures var r := Run(Stacked(m0), steps).value;
      && InRetryMode(r.issue)
      && Count(r.trace, ReconnectTimerKind) == Count(Stacked(m0).trace, ReconnectTimerKind)
      && Count(r.trace, EmitKind(Remove)) == Count(Stacked(m0).trace, EmitKind(Remove))
  {
    StackedRetriesGoNegative(m0);
    StuckInRetryMode(Stacked(m0), steps);
  }
}
