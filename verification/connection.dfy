/**
 The per-server connection issue log: an immutable record of the failure state of one
 server connection, with pure transitions that return the next record together with the
 ordered list of effects (events emitted, timers scheduled, probes started) the original
 object performs as side effects.
 */
module Connection {
  import opened Wrappers

  /** Placeholder recorded when a failure carries no message. */
  const DefaultMessage: string := "No message specified"

  /** Where the server is probed: the port first, then the host. */
  datatype Tokens = Tokens(port: string, host: string)

  /** The fields a caller may supply at construction; `None` means "not supplied". */
  datatype Config = Config(
    serverAddress: Option<string>,
    tokens: Option<Tokens>,
    retries: Option<int>,
    retry: Option<int>,
    reconnect: Option<int>,
    remove: Option<bool>)

  /** The live configuration of an issue log, which `retries` aside never changes
      except when it is restored from the construction snapshot. */
  datatype Settings = Settings(
    serverAddress: string,
    tokens: Tokens,
    retries: int,
    retry: int,
    reconnect: int,
    remove: bool)

  datatype IssueLog = IssueLog(
    config: Config,
    settings: Settings,
    failed: bool,
    messages: seq<string>,
    totalRetries: nat,
    totalReconnectsAttempted: nat,
    totalReconnectsSuccess: nat)

  /** The mode-dependent part of a details snapshot: retry mode reports the remaining
      retries, reconnect mode the reconnect statistics; neither carries the other's fields. */
  datatype Stats =
    | RetryStats(retries: int, totalRetries: nat)
    | ReconnectStats(
        totalReconnectsAttempted: nat,
        totalReconnectsSuccess: nat,
        totalReconnectsFailed: int,
        totalDownTime: int)

  /** The snapshot carried by every event. */
  datatype Details = Details(server: string, tokens: Tokens, messages: seq<string>, stats: Stats)

  datatype Event = Issue | Remove | Reconnecting | Reconnected

  datatype Effect =
    | Emit(event: Event, details: Details)
    | ScheduleRetry(delay: int)       // a timer that will call AttemptRetry
    | ScheduleReconnect(delay: int)   // a timer that will call ReconnectStart
    | Ping(host: string, port: string) // a reachability probe whose outcome feeds ReconnectResult

  /** What the reachability probe reports back. */
  datatype ProbeOutcome = Reachable | Unreachable(message: string)

  datatype Transition = Transition(next: IssueLog, effects: seq<Effect>)

  /** The mode test: any non-zero `retries`, negative ones included, selects retry mode. */
  function InRetryMode(s: IssueLog): (b: bool)
    ensures s.settings.retries > 0 ==> b
    ensures s.settings.retries < 0 ==> b
    ensures s.settings.retries == 0 ==> !b
  {
    s.settings.retries != 0
  }

  /** The message recorded for a failure: the given one, or the placeholder when it is empty. */
  function MessageOr(m: string): (r: string)
    ensures r != ""
    ensures m != "" ==> r == m
    ensures m == "" ==> r == DefaultMessage
  {
    if m == "" then DefaultMessage else m
  }

  /** The values the instance holds before the supplied configuration is copied in. */
  const Unset: Settings := Settings("", Tokens("", ""), 0, 0, 0, false)

  /** Copies every supplied field of `c` over `live`, leaving the others as they are. */
  function Merge(live: Settings, c: Config): (r: Settings)
    ensures r.serverAddress == (if c.serverAddress.Some? then c.serverAddress.value else live.serverAddress)
    ensures r.tokens == (if c.tokens.Some? then c.tokens.value else live.tokens)
    ensures r.retries == (if c.retries.Some? then c.retries.value else live.retries)
    ensures r.retry == (if c.retry.Some? then c.retry.value else live.retry)
    ensures r.reconnect == (if c.reconnect.Some? then c.reconnect.value else live.reconnect)
    ensures r.remove == (if c.remove.Some? then c.remove.value else live.remove)
  {
    Settings(
      c.serverAddress.GetOr(live.serverAddress),
      c.tokens.GetOr(live.tokens),
      c.retries.GetOr(live.retries),
      c.retry.GetOr(live.retry),
      c.reconnect.GetOr(live.reconnect),
      c.remove.GetOr(live.remove))
  }

  /** Totals are equal in both records. */
  predicate SameTotals(a: IssueLog, b: IssueLog) {
    && a.totalRetries == b.totalRetries
    && a.totalReconnectsAttempted == b.totalReconnectsAttempted
    && a.totalReconnectsSuccess == b.totalReconnectsSuccess
  }

  /** No total of `b` is smaller than the same total of `a`. */
  predicate TotalsGrow(a: IssueLog, b: IssueLog) {
    && a.totalRetries <= b.totalRetries
    && a.totalReconnectsAttempted <= b.totalReconnectsAttempted
    && a.totalReconnectsSuccess <= b.totalReconnectsSuccess
  }

  /** A fresh issue log: healthy, no messages, all totals zero, the supplied fields copied
      in (an absent field keeps its unset value) and the configuration kept as a snapshot. */
  function Construct(c: Config): (r: IssueLog)
    ensures r.config == c
    ensures r.messages == [] && !r.failed
    ensures r.totalRetries == 0 && r.totalReconnectsAttempted == 0 && r.totalReconnectsSuccess == 0
    ensures c.retries.None? ==> r.settings.retries == 0
    ensures c.retry.None? ==> r.settings.retry == 0
    ensures c.serverAddress.Some? ==> r.settings.serverAddress == c.serverAddress.value
    ensures c.tokens.Some? ==> r.settings.tokens == c.tokens.value
    ensures c.retries.Some? ==> r.settings.retries == c.retries.value
    ensures c.retry.Some? ==> r.settings.retry == c.retry.value
    ensures c.reconnect.Some? ==> r.settings.reconnect == c.reconnect.value
    ensures c.remove.Some? ==> r.settings.remove == c.remove.value
    ensures c.remove.None? ==> !r.settings.remove
  {
    IssueLog(c, Merge(Unset, c), false, [], 0, 0, 0)
  }

  /** The details snapshot of a state. */
  function GetDetails(s: IssueLog): (d: Details)
    ensures d.server == s.settings.serverAddress && d.tokens == s.settings.tokens
    ensures d.messages == s.messages
    ensures d.stats.RetryStats? <==> InRetryMode(s)
    ensures d.stats.RetryStats? ==>
      d.stats.retries == s.settings.retries && d.stats.totalRetries == s.totalRetries
    ensures d.stats.ReconnectStats? ==>
      && d.stats.totalReconnectsAttempted == s.totalReconnectsAttempted
      && d.stats.totalReconnectsSuccess == s.totalReconnectsSuccess
      && d.stats.totalReconnectsAttempted - d.stats.totalReconnectsSuccess == d.stats.totalReconnectsFailed
      && d.stats.totalDownTime
         == d.stats.totalReconnectsFailed * s.settings.reconnect + s.totalRetries * s.settings.retry
  {
    var stats :=
      if InRetryMode(s) then
        RetryStats(s.settings.retries, s.totalRetries)
      else
        var failed := s.totalReconnectsAttempted - s.totalReconnectsSuccess;
        ReconnectStats(
          s.totalReconnectsAttempted,
          s.totalReconnectsSuccess,
          failed,
          failed * s.settings.reconnect + s.totalRetries * s.settings.retry);
    Details(s.settings.serverAddress, s.settings.tokens, s.messages, stats)
  }

  /** The owner reports a failed operation. The state is marked failed and the message
      recorded; then either a retry timer is scheduled and an `issue` event emitted (retry
      mode), or a `remove` event is emitted when `remove` is set and a reconnect timer is
      scheduled (reconnect mode). */
  function Log(s: IssueLog, message: string): (t: Transition)
    ensures t.next.failed
    ensures t.next.messages == s.messages + [MessageOr(message)]
    ensures t.next.config == s.config && t.next.settings == s.settings && SameTotals(s, t.next)
    ensures InRetryMode(s) ==>
      t.effects == [ScheduleRetry(s.settings.retry), Emit(Issue, GetDetails(t.next))]
    ensures !InRetryMode(s) && s.settings.remove ==>
      t.effects == [Emit(Remove, GetDetails(t.next)), ScheduleReconnect(s.settings.reconnect)]
    ensures !InRetryMode(s) && !s.settings.remove ==>
      t.effects == [ScheduleReconnect(s.settings.reconnect)]
  {
    var failed := s.(failed := true, messages := s.messages + [MessageOr(message)]);
    if InRetryMode(failed) then
      Transition(failed, [ScheduleRetry(failed.settings.retry), Emit(Issue, GetDetails(failed))])
    else
      var removal := if failed.settings.remove then [Emit(Remove, GetDetails(failed))] else [];
      Transition(failed, removal + [ScheduleReconnect(failed.settings.reconnect)])
  }

  /** The retry timer fires: one more retry counted, one fewer remaining, and the
      connection optimistically considered healthy again. */
  function AttemptRetry(s: IssueLog): (r: IssueLog)
    ensures r.totalRetries == s.totalRetries + 1
    ensures r.settings.retries == s.settings.retries - 1
    ensures !r.failed
    ensures r.settings.(retries := s.settings.retries) == s.settings
    ensures r.config == s.config && r.messages == s.messages
    ensures r.totalReconnectsAttempted == s.totalReconnectsAttempted
    ensures r.totalReconnectsSuccess == s.totalReconnectsSuccess
  {
    s.(settings := s.settings.(retries := s.settings.retries - 1),
       totalRetries := s.totalRetries + 1,
       failed := false)
  }

  /** The reconnect timer fires: the attempt is counted, a `reconnecting` event reporting
      the counted attempt is emitted, and the probe of the tokens' host and port starts. */
  function ReconnectStart(s: IssueLog): (t: Transition)
    ensures t.next == s.(totalReconnectsAttempted := s.totalReconnectsAttempted + 1)
    ensures t.effects ==
      [Emit(Reconnecting, GetDetails(t.next)), Ping(s.settings.tokens.host, s.settings.tokens.port)]
  {
    var attempted := s.(totalReconnectsAttempted := s.totalReconnectsAttempted + 1);
    Transition(attempted,
      [Emit(Reconnecting, GetDetails(attempted)), Ping(attempted.settings.tokens.host, attempted.settings.tokens.port)])
  }

  /** The probe reports back. When the server is still unreachable the error message is
      recorded and another reconnect timer scheduled; when it is reachable a `reconnected`
      event with the details as they stood is emitted, then the success is counted, the
      messages cleared, the state marked healthy and the supplied configuration restored. */
  function ReconnectResult(s: IssueLog, outcome: ProbeOutcome): (t: Transition)
    ensures outcome.Unreachable? ==>
      && t.next == s.(messages := s.messages + [MessageOr(outcome.message)])
      && t.effects == [ScheduleReconnect(s.settings.reconnect)]
    ensures outcome.Reachable? ==>
      && t.effects == [Emit(Reconnected, GetDetails(s))]
      && t.next.totalReconnectsSuccess == s.totalReconnectsSuccess + 1
      && t.next.messages == [] && !t.next.failed
      && t.next.settings == Merge(s.settings, s.config)
      && t.next.config == s.config
      && t.next.totalRetries == s.totalRetries
      && t.next.totalReconnectsAttempted == s.totalReconnectsAttempted
  {
    match outcome
    case Unreachable(m) =>
      Transition(s.(messages := s.messages + [MessageOr(m)]), [ScheduleReconnect(s.settings.reconnect)])
    case Reachable =>
      var recovered := s.(totalReconnectsSuccess := s.totalReconnectsSuccess + 1,
                          messages := [],
                          failed := false);
      Transition(recovered.(settings := Merge(recovered.settings, recovered.config)),
                 [Emit(Reconnected, GetDetails(s))])
  }

  /** Classifies effects so that they can be counted. */
  datatype Kind = EmitKind(event: Event) | RetryTimerKind | ReconnectTimerKind | PingKind

  function KindOf(e: Effect): Kind {
    match e
    case Emit(ev, _) => EmitKind(ev)
    case ScheduleRetry(_) => RetryTimerKind
    case ScheduleReconnect(_) => ReconnectTimerKind
    case Ping(_, _) => PingKind
  }

  /** The number of effects of kind `k` in `effects`. */
  function Count(effects: seq<Effect>, k: Kind): nat {
    if |effects| == 0 then 0
    else (if KindOf(effects[0]) == k then 1 else 0) + Count(effects[1..], k)
  }
}
