/** Properties of single issue-log transitions. */
module ConnectionLemmas {
  import opened Connection

  lemma {:induction false} CountAppend(a: seq<Effect>, b: seq<Effect>, k: Kind)
    ensures Count(a + b, k) == Count(a, k) + Count(b, k)
  {
    if |a| == 0 {
      assert a + b == b;
    } else {
      assert (a + b)[1..] == a[1..] + b;
      CountAppend(a[1..], b, k);
    }
  }

  lemma CountOne(e: Effect, k: Kind)
    ensures Count([e], k) == (if KindOf(e) == k then 1 else 0)
  {
    assert [e][1..] == [];
  }

  lemma CountTwo(e0: Effect, e1: Effect, k: Kind)
    ensures Count([e0, e1], k) == (if KindOf(e0) == k then 1 else 0) + (if KindOf(e1) == k then 1 else 0)
  {
    assert [e0, e1][1..] == [e1];
    assert [e1][1..] == [];
    assert Count([e1], k) == (if KindOf(e1) == k then 1 else 0) + Count([], k);
    assert Count([e0, e1], k) == (if KindOf(e0) == k then 1 else 0) + Count([e1], k);
  }

  /** 1 when `effects` has an effect of kind `k` at position `i`, 0 otherwise. */
  function At(effects: seq<Effect>, i: nat, k: Kind): nat {
    if i < |effects| && KindOf(effects[i]) == k then 1 else 0
  }

  /** Counting in an effect list of a single transition, which never holds more than two. */
  lemma CountShort(effects: seq<Effect>)
    requires |effects| <= 2
    ensures forall k :: Count(effects, k) == At(effects, 0, k) + At(effects, 1, k)
  {
    forall k ensures Count(effects, k) == At(effects, 0, k) + At(effects, 1, k) {
      if |effects| == 1 {
        CountOne(effects[0], k);
      } else if |effects| == 2 {
        CountTwo(effects[0], effects[1], k);
      }
    }
  }

  /** In retry mode a failure schedules exactly one retry timer, with the `retry` delay,
      and emits exactly one `issue` event whose details carry the retry fields; there is
      no `remove` event and no reconnect timer. */
  lemma LogInRetryMode(s: IssueLog, message: string)
    requires InRetryMode(s)
    ensures var t := Log(s, message);
      && Count(t.effects, RetryTimerKind) == 1
      && Count(t.effects, EmitKind(Issue)) == 1
      && Count(t.effects, EmitKind(Remove)) == 0
      && Count(t.effects, ReconnectTimerKind) == 0
      && (forall i :: 0 <= i < |t.effects| && t.effects[i].ScheduleRetry? ==> t.effects[i].delay == s.settings.retry)
      && (forall i :: 0 <= i < |t.effects| && t.effects[i].Emit? ==>
            && t.effects[i].details.stats == RetryStats(s.settings.retries, s.totalRetries)
            && t.effects[i].details.messages == s.messages + [MessageOr(message)])
  {
    var t := Log(s, message);
    CountTwo(t.effects[0], t.effects[1], RetryTimerKind);
    CountTwo(t.effects[0], t.effects[1], EmitKind(Issue));
    CountTwo(t.effects[0], t.effects[1], EmitKind(Remove));
    CountTwo(t.effects[0], t.effects[1], ReconnectTimerKind);
  }

  /** In reconnect mode a failure emits `remove` exactly when `remove` is set, and
      schedules exactly one reconnect timer, with the `reconnect` delay, after it; there
      is no `issue` event and no retry timer. */
  lemma LogInReconnectMode(s: IssueLog, message: string)
    requires !InRetryMode(s)
    ensures var t := Log(s, message);
      && (Count(t.effects, EmitKind(Remove)) == 1 <==> s.settings.remove)
      && (Count(t.effects, EmitKind(Remove)) == 0 <==> !s.settings.remove)
      && Count(t.effects, ReconnectTimerKind) == 1
      && Count(t.effects, EmitKind(Issue)) == 0
      && Count(t.effects, RetryTimerKind) == 0
      && t.effects[|t.effects| - 1] == ScheduleReconnect(s.settings.reconnect)
      && (forall i, j ::
            0 <= i < |t.effects| && 0 <= j < |t.effects| && t.effects[i].Emit? && t.effects[j].ScheduleReconnect?
            ==> i < j)
  {
    var t := Log(s, message);
    if s.settings.remove {
      CountTwo(t.effects[0], t.effects[1], RetryTimerKind);
      CountTwo(t.effects[0], t.effects[1], EmitKind(Issue));
      CountTwo(t.effects[0], t.effects[1], EmitKind(Remove));
      CountTwo(t.effects[0], t.effects[1], ReconnectTimerKind);
    }
  }

  /** Retry mode persists once `retries` has gone negative: the next failure is handled
      by retrying, and the retry it schedules keeps `retries` negative. */
  lemma NegativeRetriesKeepRetryMode(s: IssueLog, message: string)
    requires s.settings.retries < 0
    ensures InRetryMode(Log(s, message).next)
    ensures Log(s, message).effects[0] == ScheduleRetry(s.settings.retry)
    ensures AttemptRetry(Log(s, message).next).settings.retries < 0
  {
  }

  /** `failed` is cleared by a retry even though the failure's message is still recorded. */
  lemma RetryClearsFailedButKeepsMessages(s: IssueLog, message: string)
    ensures var r := AttemptRetry(Log(s, message).next);
      !r.failed && |r.messages| == |s.messages| + 1 && r.messages[|s.messages|] == MessageOr(message)
  {
  }

  /** The `reconnecting` event already reports the attempt being started. */
  lemma ReconnectingReportsTheAttempt(s: IssueLog)
    requires !InRetryMode(s)
    ensures var t := ReconnectStart(s);
      && t.effects[0].Emit? && t.effects[0].event == Reconnecting
      && t.effects[0].details.stats.ReconnectStats?
      && t.effects[0].details.stats.totalReconnectsAttempted == s.totalReconnectsAttempted + 1
      && t.effects[0].details.stats.totalReconnectsFailed
         == s.totalReconnectsAttempted + 1 - s.totalReconnectsSuccess
  {
  }

  /** The `reconnected` event reports the state before the reset: the old messages and
      the success not yet counted. */
  lemma ReconnectedReportsBeforeReset(s: IssueLog)
    requires !InRetryMode(s)
    ensures var t := ReconnectResult(s, Reachable);
      && t.effects[0].details.messages == s.messages
      && t.effects[0].details.stats.ReconnectStats?
      && t.effects[0].details.stats.totalReconnectsSuccess == s.totalReconnectsSuccess
      && t.next.totalReconnectsSuccess == s.totalReconnectsSuccess + 1
  {
  }

  /** A failed probe records exactly one message and leaves totals, settings and
      `failed` alone. */
  lemma UnreachableRecordsOneMessage(s: IssueLog, message: string)
    ensures var t := ReconnectResult(s, Unreachable(message));
      && |t.next.messages| == |s.messages| + 1
      && t.next.messages[..|s.messages|] == s.messages
      && t.next.messages[|s.messages|] == (if message == "" then DefaultMessage else message)
      && SameTotals(s, t.next) && t.next.failed == s.failed && t.next.settings == s.settings
      && Count(t.effects, ReconnectTimerKind) == 1
  {
  }

  /** No transition ever decreases a total. */
  lemma TransitionsNeverDecreaseTotals(s: IssueLog, message: string, outcome: ProbeOutcome)
    ensures TotalsGrow(s, Log(s, message).next)
    ensures TotalsGrow(s, AttemptRetry(s))
    ensures TotalsGrow(s, ReconnectStart(s).next)
    ensures TotalsGrow(s, ReconnectResult(s, outcome).next)
  {
  }

  /** `live` holds, on every field that `c` does not supply, the value a fresh issue log
      gives that field. */
  predicate UnsuppliedUnset(live: Settings, c: Config) {
    && (c.serverAddress.None? ==> live.serverAddress == Unset.serverAddress)
    && (c.tokens.None? ==> live.tokens == Unset.tokens)
    && (c.retries.None? ==> live.retries == Unset.retries)
    && (c.retry.None? ==> live.retry == Unset.retry)
    && (c.reconnect.None? ==> live.reconnect == Unset.reconnect)
    && (c.remove.None? ==> live.remove == Unset.remove)
  }

  /** Copying the configuration back over live settings that have kept their unset values
      on the unsupplied fields gives exactly the settings of a fresh issue log; and the
      copy is idempotent. */
  lemma RestoreGivesConstructedSettings(live: Settings, c: Config)
    requires UnsuppliedUnset(live, c)
    ensures Merge(live, c) == Construct(c).settings
    ensures Merge(Merge(live, c), c) == Merge(live, c)
  {
  }

  /** The figures of an example in reconnect mode: 5 attempts, 3 successes,
      reconnect 1000, 2 retries of 500 give 2 failures and a down time of 3000. */
  lemma DownTimeExample(s: IssueLog)
    requires s.settings.retries == 0
    requires s.totalReconnectsAttempted == 5 && s.totalReconnectsSuccess == 3
    requires s.settings.reconnect == 1000 && s.totalRetries == 2 && s.settings.retry == 500
    ensures GetDetails(s).stats == ReconnectStats(5, 3, 2, 3000)
  {
  }

  /** The down time is never negative when the intervals are not and no more successes
      than attempts have been counted. */
  lemma DownTimeNonNegative(s: IssueLog)
    requires !InRetryMode(s)
    requires s.totalReconnectsSuccess <= s.totalReconnectsAttempted
    requires s.settings.reconnect >= 0 && s.settings.retry >= 0
    ensures GetDetails(s).stats.totalReconnectsFailed >= 0
    ensures GetDetails(s).stats.totalDownTime >= 0
  {
    var failed := s.totalReconnectsAttempted - s.totalReconnectsSuccess;
    assert failed * s.settings.reconnect >= 0;
    assert s.totalRetries * s.settings.retry >= 0;
  }
}
