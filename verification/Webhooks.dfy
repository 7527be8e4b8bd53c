/**
 * Webhook delivery: queued deliveries, batch passes over those that are due, exponential backoff, dead
 * letters and their replay, and the disabling of endpoints that keep failing. Delivery and endpoint rows
 * are never deleted here, so an id is a row number. Passes are serial and database writes succeed.
 */
module Webhooks {
  import opened Prelude

  const BATCH_SIZE := 100

  datatype DeliveryStatus = Pending | Delivered | Failed | Retrying

  datatype EndpointStatus = EndpointActive | EndpointDisabled | EndpointFailed

  datatype Delivery = Delivery(
    eventId: string, endpoint: nat, status: DeliveryStatus, attempts: nat, nextRetryAt: Option<int>)

  datatype Endpoint = Endpoint(status: EndpointStatus, consecutiveFailures: nat)

  datatype Config = Config(maxRetries: int, retryBackoffMs: nat, maxConsecutiveFailures: int)

  /** What the HTTP call of one attempt came to. */
  datatype Reply = Accepted | Refused(responseStatus: Option<int>)

  /** What the attempt did with the delivery. */
  datatype Effect = Completed | BackedOff(delayMs: nat) | DeadLettered

  /** The history of the queue: rows created and replayed, and every HTTP post made. */
  datatype Event =
    | Queued(delivery: nat)
    | Replayed(delivery: nat)
    | Posted(delivery: nat, endpoint: nat, effect: Effect)

  datatype System = System(endpoints: seq<Endpoint>, deliveries: seq<Delivery>, log: seq<Event>)

  datatype Counts = Counts(delivered: nat, failed: nat, retrying: nat)

  // ----- Pure decisions -----

  function Pow2(n: nat): (p: nat)
    ensures p > 0
  {
    if n == 0 then 1 else 2 * Pow2(n - 1)
  }

  /** The delay before the attempt that follows attempt number n >= 1. */
  function BackoffDelay(cfg: Config, n: nat): nat
    requires n >= 1
  {
    cfg.retryBackoffMs * Pow2(n - 1)
  }

  predicate IsRetryableError(code: string, responseStatus: Option<int>) {
    || code in {"ECONNREFUSED", "ETIMEDOUT", "ENOTFOUND"}
    || responseStatus in {None, Some(0)}
    || responseStatus.value >= 500
  }

  /** The error rebuilt by the dispatcher always has an empty code. */
  predicate ShouldRetry(cfg: Config, attempt: nat, reply: Reply) {
    attempt < cfg.maxRetries && reply.Refused? && IsRetryableError("", reply.responseStatus)
  }

  predicate Due(cfg: Config, d: Delivery, now: int) {
    && (d.status == Pending || (d.status == Retrying && d.nextRetryAt.Some? && d.nextRetryAt.value <= now))
    && d.attempts < cfg.maxRetries
  }

  // ----- One attempt -----

  function FailEndpoint(cfg: Config, e: Endpoint): Endpoint {
    var n := e.consecutiveFailures + 1;
    Endpoint(if n >= cfg.maxConsecutiveFailures then EndpointFailed else e.status, n)
  }

  /** `row` and `status` are the delivery and its endpoint's status as read at the start of the pass. */
  function Attempt(cfg: Config, s: System, d: nat, row: Delivery, status: EndpointStatus, reply: Reply, now: int)
    : (System, DeliveryStatus)
    requires d < |s.deliveries| && row.endpoint < |s.endpoints|
  {
    var e, n := row.endpoint, row.attempts + 1;
    if status != EndpointActive then (s, Failed)
    else if reply.Accepted? then
      (System(s.endpoints[e := s.endpoints[e].(consecutiveFailures := 0)],
              s.deliveries[d := s.deliveries[d].(status := Delivered)],
              s.log + [Posted(d, e, Completed)]), Delivered)
    else if ShouldRetry(cfg, n, reply) then
      (System(s.endpoints,
              s.deliveries[d := s.deliveries[d].(
                status := Retrying, attempts := n, nextRetryAt := Some(now + BackoffDelay(cfg, n)))],
              s.log + [Posted(d, e, BackedOff(BackoffDelay(cfg, n)))]), Retrying)
    else
      (System(s.endpoints[e := FailEndpoint(cfg, s.endpoints[e])],
              s.deliveries[d := s.deliveries[d].(status := Failed, attempts := n)],
              s.log + [Posted(d, e, DeadLettered)]), Failed)
  }

  function Tally(c: Counts, result: DeliveryStatus): Counts {
    match result
    case Delivered => c.(delivered := c.delivered + 1)
    case Failed => c.(failed := c.failed + 1)
    case Retrying => c.(retrying := c.retrying + 1)
    case Pending => c
  }

  /** The rows a pass reads: due, without repetition, at most a batch, with endpoints that exist. */
  ghost predicate IsBatch(cfg: Config, s: System, batch: seq<nat>, now: int) {
    && |batch| <= BATCH_SIZE
    && (forall i :: 0 <= i < |batch| ==>
          && batch[i] < |s.deliveries| && Due(cfg, s.deliveries[batch[i]], now)
          && s.deliveries[batch[i]].endpoint < |s.endpoints|)
    && (forall i, j :: 0 <= i < j < |batch| ==> batch[i] != batch[j])
  }

  ghost predicate InRange(s: System, batch: seq<nat>) {
    forall i :: 0 <= i < |batch| ==> batch[i] < |s.deliveries| && s.deliveries[batch[i]].endpoint < |s.endpoints|
  }

  /** A pass from s: every attempt works on the rows as s had them. `replies` pairs the HTTP result with its time. */
  ghost function Pass(cfg: Config, s: System, batch: seq<nat>, replies: seq<(Reply, int)>): (r: (System, Counts))
    requires InRange(s, batch) && |replies| == |batch|
    ensures |r.0.deliveries| == |s.deliveries| && |r.0.endpoints| == |s.endpoints|
  {
    if batch == [] then (s, Counts(0, 0, 0))
    else
      var n := |batch| - 1;
      var (s', c) := Pass(cfg, s, batch[..n], replies[..n]);
      var row := s.deliveries[batch[n]];
      var status := s.endpoints[row.endpoint].status;
      var (s'', result) := Attempt(cfg, s', batch[n], row, status, replies[n].0, replies[n].1);
      (s'', Tally(c, result))
  }

  // ----- Queueing and replaying -----

  /** The event id of a delivery is unique in its table. */
  predicate EventKnown(rows: seq<Delivery>, eventId: string) {
    exists d :: 0 <= d < |rows| && rows[d].eventId == eventId
  }

  function Queue(s: System, eventId: string, e: nat): System {
    s.(deliveries := s.deliveries + [Delivery(eventId, e, Pending, 0, None)], log := s.log + [Queued(|s.deliveries|)])
  }

  predicate IsActive(endpoints: seq<Endpoint>, e: nat) {
    e < |endpoints| && endpoints[e].status == EndpointActive
  }

  /** One insert per active subscriber, until an insert meets the event id in the table and throws. */
  function Dispatch(s: System, eventId: string, subscribers: seq<nat>): (System, bool)
    decreases |subscribers|
  {
    if subscribers == [] then (s, true)
    else if !IsActive(s.endpoints, subscribers[0]) then Dispatch(s, eventId, subscribers[1..])
    else if EventKnown(s.deliveries, eventId) then (s, false)
    else Dispatch(Queue(s, eventId, subscribers[0]), eventId, subscribers[1..])
  }

  function Replay(s: System, d: nat): System {
    if d < |s.deliveries| && s.deliveries[d].status == Failed
    then s.(deliveries := s.deliveries[d := s.deliveries[d].(status := Pending, attempts := 0, nextRetryAt := None)],
            log := s.log + [Replayed(d)])
    else s
  }

  class WebhookDispatcher {
    var endpoints: seq<Endpoint>
    var deliveries: seq<Delivery>
    ghost var log: seq<Event>
    const cfg: Config

    ghost function Model(): System
      reads this
    {
      System(endpoints, deliveries, log)
    }

    constructor (cfg: Config)
      ensures Model() == System([], [], []) && this.cfg == cfg
    {
      this.cfg, endpoints, deliveries, log := cfg, [], [], [];
    }

    /** `subscribers` are the endpoints subscribed to the event, of which only the active ones are found. */
    method DispatchEvent(eventId: string, subscribers: seq<nat>) returns (ok: bool)
      modifies this
      ensures (Model(), ok) == Dispatch(old(Model()), eventId, subscribers)
    {
      assert subscribers[0..] == subscribers;
      for i := 0 to |subscribers|
        invariant Dispatch(Model(), eventId, subscribers[i..]) == Dispatch(old(Model()), eventId, subscribers)
      {
        assert subscribers[i..][1..] == subscribers[i + 1..];
        var e := subscribers[i];
        if e < |endpoints| && endpoints[e].status == EndpointActive {
          var created := CreateDelivery(eventId, e);
          if !created {
            return false;
          }
        }
      }
      return true;
    }

    method CreateDelivery(eventId: string, e: nat) returns (created: bool)
      modifies this
      ensures created <==> !EventKnown(old(deliveries), eventId)
      ensures Model() == if created then Queue(old(Model()), eventId, e) else old(Model())
    {
      if exists d :: 0 <= d < |deliveries| && deliveries[d].eventId == eventId {
        return false;
      }
      log := log + [Queued(|deliveries|)];
      deliveries := deliveries + [Delivery(eventId, e, Pending, 0, None)];
      return true;
    }

    method ProcessDeliveries(batch: seq<nat>, replies: seq<(Reply, int)>, now: int) returns (counts: Counts)
      requires IsBatch(cfg, Model(), batch, now) && |replies| == |batch|
      modifies this
      ensures (Model(), counts) == Pass(cfg, old(Model()), batch, replies)
    {
      var rows := deliveries;
      var owners := endpoints;
      var delivered, failed, retrying := 0, 0, 0;
      for i := 0 to |batch|
        invariant (Model(), Counts(delivered, failed, retrying)) == Pass(cfg, old(Model()), batch[..i], replies[..i])
      {
        assert batch[..i + 1][..i] == batch[..i] && replies[..i + 1][..i] == replies[..i];
        var row := rows[batch[i]];
        var result := AttemptDelivery(batch[i], row, owners[row.endpoint].status, replies[i].0, replies[i].1);
        if result == Delivered {
          delivered := delivered + 1;
        } else if result == Failed {
          failed := failed + 1;
        } else if result == Retrying {
          retrying := retrying + 1;
        }
      }
      assert batch[..|batch|] == batch && replies[..|batch|] == replies;
      return Counts(delivered, failed, retrying);
    }

    method AttemptDelivery(d: nat, row: Delivery, status: EndpointStatus, reply: Reply, now: int)
      returns (result: DeliveryStatus)
      requires d < |deliveries| && row.endpoint < |endpoints|
      modifies this
      ensures (Model(), result) == Attempt(cfg, old(Model()), d, row, status, reply, now)
    {
      if status != EndpointActive {
        return Failed;
      }
      var attemptNumber := row.attempts + 1;
      if reply.Accepted? {
        deliveries := deliveries[d := deliveries[d].(status := Delivered)];
        endpoints := endpoints[row.endpoint := endpoints[row.endpoint].(consecutiveFailures := 0)];
        log := log + [Posted(d, row.endpoint, Completed)];
        return Delivered;
      }
      if attemptNumber < cfg.maxRetries && IsRetryableError("", reply.responseStatus) {
        var delay := BackoffDelay(cfg, attemptNumber);
        deliveries := deliveries[d :=
          deliveries[d].(status := Retrying, attempts := attemptNumber, nextRetryAt := Some(now + delay))];
        log := log + [Posted(d, row.endpoint, BackedOff(delay))];
        return Retrying;
      }
      deliveries := deliveries[d := deliveries[d].(status := Failed, attempts := attemptNumber)];
      MarkEndpointFailure(row.endpoint);
      log := log + [Posted(d, row.endpoint, DeadLettered)];
      return Failed;
    }

    method MarkEndpointFailure(e: nat)
      requires e < |endpoints|
      modifies this`endpoints
      ensures endpoints == old(endpoints)[e := FailEndpoint(cfg, old(endpoints)[e])]
    {
      var n := endpoints[e].consecutiveFailures + 1;
      var status := endpoints[e].status;
      if n >= cfg.maxConsecutiveFailures {
        status := EndpointFailed;
      }
      endpoints := endpoints[e := Endpoint(status, n)];
    }

    method ReplayDeadLetter(d: nat) returns (ok: bool)
      modifies this
      ensures Model() == Replay(old(Model()), d)
      ensures ok <==> d < |old(deliveries)| && old(deliveries)[d].status == Failed
    {
      if d >= |deliveries| || deliveries[d].status != Failed {
        return false;
      }
      deliveries := deliveries[d := deliveries[d].(status := Pending, attempts := 0, nextRetryAt := None)];
      log := log + [Replayed(d)];
      return true;
    }
  }

  // ----- What the log says -----

  /** HTTP posts for a delivery since it was created or last replayed. */
  function Posts(log: seq<Event>, d: nat): nat {
    if log == [] then 0
    else
      match log[|log| - 1]
      case Queued(x) => if x == d then 0 else Posts(log[..|log| - 1], d)
      case Replayed(x) => if x == d then 0 else Posts(log[..|log| - 1], d)
      case Posted(x, _, _) => Posts(log[..|log| - 1], d) + if x == d then 1 else 0
  }

  /** The backoff delays granted to a delivery since it was created or last replayed. */
  function Delays(log: seq<Event>, d: nat): nat {
    if log == [] then 0
    else
      match log[|log| - 1]
      case Queued(x) => if x == d then 0 else Delays(log[..|log| - 1], d)
      case Replayed(x) => if x == d then 0 else Delays(log[..|log| - 1], d)
      case Posted(x, _, effect) =>
        Delays(log[..|log| - 1], d) + if x == d && effect.BackedOff? then effect.delayMs else 0
  }

  /** Deliveries of an endpoint dead-lettered since its last success. */
  function DeadLetters(log: seq<Event>, e: nat): nat {
    if log == [] then 0
    else
      match log[|log| - 1]
      case Posted(_, x, Completed) => if x == e then 0 else DeadLetters(log[..|log| - 1], e)
      case Posted(_, x, DeadLettered) => DeadLetters(log[..|log| - 1], e) + if x == e then 1 else 0
      case _ => DeadLetters(log[..|log| - 1], e)
  }

  /** The delays after each of the first n attempts. */
  function TotalDelay(cfg: Config, n: nat): nat {
    if n == 0 then 0 else TotalDelay(cfg, n - 1) + BackoffDelay(cfg, n)
  }

  // ----- The invariant -----

  ghost predicate DeliveryOk(cfg: Config, row: Delivery, posts: nat, delays: nat) {
    match row.status
    case Pending => row.attempts == 0 && posts == 0 && delays == 0
    case Retrying =>
      && 1 <= row.attempts < cfg.maxRetries && posts == row.attempts
      && delays == TotalDelay(cfg, row.attempts)
    case Delivered =>
      && row.attempts < cfg.maxRetries && posts == row.attempts + 1
      && delays == TotalDelay(cfg, row.attempts)
    case Failed =>
      && 1 <= row.attempts <= cfg.maxRetries && posts == row.attempts
      && delays == TotalDelay(cfg, row.attempts - 1)
  }

  ghost predicate EndpointOk(cfg: Config, e: Endpoint, deadLetters: nat) {
    && e.consecutiveFailures == deadLetters
    && (e.status == EndpointActive ==> e.consecutiveFailures < Max(1, cfg.maxConsecutiveFailures))
  }

  ghost predicate Inv(cfg: Config, s: System) {
    && (forall d :: 0 <= d < |s.deliveries| ==>
          && s.deliveries[d].endpoint < |s.endpoints|
          && DeliveryOk(cfg, s.deliveries[d], Posts(s.log, d), Delays(s.log, d)))
    && (forall e :: 0 <= e < |s.endpoints| ==> EndpointOk(cfg, s.endpoints[e], DeadLetters(s.log, e)))
  }

  lemma {:induction false} TotalDelayClosed(cfg: Config, n: nat)
    ensures TotalDelay(cfg, n) == cfg.retryBackoffMs * (Pow2(n) - 1)
  {
    if n > 0 {
      TotalDelayClosed(cfg, n - 1);
      MoreBackoff(cfg.retryBackoffMs, Pow2(n - 1));
    }
  }

  lemma MoreBackoff(base: nat, p: nat)
    ensures base * (p - 1) + base * p == base * (2 * p - 1)
  {
    assert base * (2 * p - 1) == base * ((p - 1) + p);
  }

  /** What one more event of the log does to the three accounts. */
  lemma LogStep(log: seq<Event>, event: Event)
    ensures (log + [event])[..|log + [event]| - 1] == log
  {
  }

  lemma PostedAccounts(log: seq<Event>, d: nat, e: nat, effect: Effect, x: nat, f: nat)
    ensures var log' := log + [Posted(d, e, effect)];
      && Posts(log', x) == Posts(log, x) + (if x == d then 1 else 0)
      && Delays(log', x) == Delays(log, x) + (if x == d && effect.BackedOff? then effect.delayMs else 0)
      && DeadLetters(log', f) == (
           if f != e || effect.BackedOff? then DeadLetters(log, f)
           else if effect == Completed then 0 else DeadLetters(log, f) + 1)
  {
    LogStep(log, Posted(d, e, effect));
  }

  /** The delivery after an attempt, with its post and delay counted. */
  lemma DeliveryAccounts(cfg: Config, row: Delivery, posts: nat, delays: nat, reply: Reply, now: int)
    requires DeliveryOk(cfg, row, posts, delays)
    requires row.status in {Pending, Retrying} && row.attempts < cfg.maxRetries
    ensures DeliveryOk(cfg, row.(status := Delivered), posts + 1, delays)
    ensures DeliveryOk(cfg, row.(status := Failed, attempts := row.attempts + 1), posts + 1, delays)
    ensures row.attempts + 1 < cfg.maxRetries ==>
      var n := row.attempts + 1;
      DeliveryOk(cfg, row.(status := Retrying, attempts := n, nextRetryAt := Some(now + BackoffDelay(cfg, n))),
                 posts + 1, delays + BackoffDelay(cfg, n))
  {
  }

  /** What an attempt to an active endpoint appends to the log. */
  function EffectOf(cfg: Config, row: Delivery, reply: Reply): Effect {
    if reply.Accepted? then Completed
    else if ShouldRetry(cfg, row.attempts + 1, reply) then BackedOff(BackoffDelay(cfg, row.attempts + 1))
    else DeadLettered
  }

  lemma AttemptShape(cfg: Config, s: System, d: nat, reply: Reply, now: int)
    requires d < |s.deliveries| && s.deliveries[d].endpoint < |s.endpoints|
    ensures var row := s.deliveries[d];
      var s' := Attempt(cfg, s, d, row, EndpointActive, reply, now).0;
      var effect := EffectOf(cfg, row, reply);
      && s'.log == s.log + [Posted(d, row.endpoint, effect)]
      && |s'.deliveries| == |s.deliveries| && |s'.endpoints| == |s.endpoints|
      && (forall x :: 0 <= x < |s.deliveries| && x != d ==> s'.deliveries[x] == s.deliveries[x])
      && (forall e :: 0 <= e < |s.endpoints| && e != row.endpoint ==> s'.endpoints[e] == s.endpoints[e])
      && s'.deliveries[d] == (
           match effect
           case Completed => row.(status := Delivered)
           case BackedOff(delay) =>
             row.(status := Retrying, attempts := row.attempts + 1, nextRetryAt := Some(now + delay))
           case DeadLettered => row.(status := Failed, attempts := row.attempts + 1))
      && s'.endpoints[row.endpoint] == (
           match effect
           case Completed => s.endpoints[row.endpoint].(consecutiveFailures := 0)
           case BackedOff(_) => s.endpoints[row.endpoint]
           case DeadLettered => FailEndpoint(cfg, s.endpoints[row.endpoint]))
  {
  }

  /** An attempt on a due delivery accounts for its post, its delay and its endpoint's failures. */
  lemma AttemptKeeps(cfg: Config, s: System, d: nat, status: EndpointStatus, reply: Reply, now: int)
    requires Inv(cfg, s) && d < |s.deliveries|
    requires s.deliveries[d].status in {Pending, Retrying} && s.deliveries[d].attempts < cfg.maxRetries
    ensures Inv(cfg, Attempt(cfg, s, d, s.deliveries[d], status, reply, now).0)
  {
    if status == EndpointActive {
      var row := s.deliveries[d];
      var s' := Attempt(cfg, s, d, row, status, reply, now).0;
      var effect := EffectOf(cfg, row, reply);
      AttemptShape(cfg, s, d, reply, now);
      forall x | 0 <= x < |s'.deliveries|
        ensures s'.deliveries[x].endpoint < |s'.endpoints|
        ensures DeliveryOk(cfg, s'.deliveries[x], Posts(s'.log, x), Delays(s'.log, x))
      {
        assert DeliveryOk(cfg, s.deliveries[x], Posts(s.log, x), Delays(s.log, x));
        PostedAccounts(s.log, d, row.endpoint, effect, x, 0);
        if x == d {
          DeliveryAccounts(cfg, row, Posts(s.log, d), Delays(s.log, d), reply, now);
        }
      }
      forall e | 0 <= e < |s'.endpoints|
        ensures EndpointOk(cfg, s'.endpoints[e], DeadLetters(s'.log, e))
      {
        assert EndpointOk(cfg, s.endpoints[e], DeadLetters(s.log, e));
        PostedAccounts(s.log, d, row.endpoint, effect, 0, e);
      }
    }
  }

  // ----- The work left -----

  function Open(cfg: Config, row: Delivery): int {
    if row.status in {Pending, Retrying} then cfg.maxRetries - row.attempts else 0
  }

  /** Attempts that the pending and retrying deliveries may still use. */
  function Work(cfg: Config, rows: seq<Delivery>): int {
    if rows == [] then 0 else Work(cfg, rows[..|rows| - 1]) + Open(cfg, rows[|rows| - 1])
  }

  lemma {:induction false} WorkUpdate(cfg: Config, rows: seq<Delivery>, d: nat, row: Delivery)
    requires d < |rows|
    ensures Work(cfg, rows[d := row]) == Work(cfg, rows) - Open(cfg, rows[d]) + Open(cfg, row)
  {
    var n := |rows| - 1;
    if d < n {
      WorkUpdate(cfg, rows[..n], d, row);
      assert rows[d := row][..n] == rows[..n][d := row];
    } else {
      assert rows[d := row][..n] == rows[..n];
    }
  }

  /** How many fetched deliveries have an endpoint that was active when the pass began. */
  ghost function ActiveFetched(s: System, batch: seq<nat>): nat
    requires InRange(s, batch)
  {
    if batch == [] then 0
    else
      var row := s.deliveries[batch[|batch| - 1]];
      ActiveFetched(s, batch[..|batch| - 1]) + if s.endpoints[row.endpoint].status == EndpointActive then 1 else 0
  }

  function Total(c: Counts): nat {
    c.delivered + c.failed + c.retrying
  }

  /** The posts of a pass: one per fetched delivery of an active endpoint, and none to any other endpoint. */
  ghost predicate PostsOnlyToActive(s: System, s': System) {
    && s.log <= s'.log
    && forall k :: |s.log| <= k < |s'.log| ==>
      && s'.log[k].Posted? && s'.log[k].endpoint < |s.endpoints|
      && s.endpoints[s'.log[k].endpoint].status == EndpointActive
  }

  /** A pass leaves the rows it has not fetched as they were. */
  lemma {:induction false} PassFrame(cfg: Config, s: System, batch: seq<nat>, replies: seq<(Reply, int)>, d: nat)
    requires InRange(s, batch) && |replies| == |batch|
    requires d < |s.deliveries| && d !in batch
    ensures Pass(cfg, s, batch, replies).0.deliveries[d] == s.deliveries[d]
  {
    if batch != [] {
      var n := |batch| - 1;
      assert batch[n] != d;
      PassFrame(cfg, s, batch[..n], replies[..n], d);
    }
  }

  /** The last attempt of a pass, as a step from the state its earlier attempts left. */
  lemma PassStep(cfg: Config, s: System, batch: seq<nat>, replies: seq<(Reply, int)>, now: int)
    requires IsBatch(cfg, s, batch, now) && |replies| == |batch| && batch != []
    ensures var n := |batch| - 1;
      var (m, c) := Pass(cfg, s, batch[..n], replies[..n]);
      var row := s.deliveries[batch[n]];
      && IsBatch(cfg, s, batch[..n], now)
      && m.deliveries[batch[n]] == row && row.status in {Pending, Retrying} && row.attempts < cfg.maxRetries
  {
    var n := |batch| - 1;
    PassFrame(cfg, s, batch[..n], replies[..n], batch[n]);
  }

  lemma {:induction false} PassKeeps(cfg: Config, s: System, batch: seq<nat>, replies: seq<(Reply, int)>, now: int)
    requires Inv(cfg, s) && IsBatch(cfg, s, batch, now) && |replies| == |batch|
    ensures Inv(cfg, Pass(cfg, s, batch, replies).0)
  {
    if batch != [] {
      var n := |batch| - 1;
      PassStep(cfg, s, batch, replies, now);
      PassKeeps(cfg, s, batch[..n], replies[..n], now);
      var m := Pass(cfg, s, batch[..n], replies[..n]).0;
      var status := s.endpoints[s.deliveries[batch[n]].endpoint].status;
      AttemptKeeps(cfg, m, batch[n], status, replies[n].0, replies[n].1);
    }
  }

  /**
   * One pass posts once per fetched delivery of an active endpoint and to no other endpoint, lowers the work
   * left by at least that number, and its three counters add up to the batch.
   */
  lemma {:induction false} PassProgress(cfg: Config, s: System, batch: seq<nat>, replies: seq<(Reply, int)>, now: int)
    requires IsBatch(cfg, s, batch, now) && |replies| == |batch|
    ensures var (s', c) := Pass(cfg, s, batch, replies);
      && PostsOnlyToActive(s, s')
      && |s'.log| == |s.log| + ActiveFetched(s, batch)
      && Work(cfg, s'.deliveries) <= Work(cfg, s.deliveries) - ActiveFetched(s, batch)
      && Total(c) == |batch|
  {
    if batch != [] {
      var n := |batch| - 1;
      PassStep(cfg, s, batch, replies, now);
      PassProgress(cfg, s, batch[..n], replies[..n], now);
      var m := Pass(cfg, s, batch[..n], replies[..n]).0;
      var status := s.endpoints[s.deliveries[batch[n]].endpoint].status;
      AttemptLowersWork(cfg, m, batch[n], status, replies[n].0, replies[n].1);
    }
  }

  lemma AttemptLowersWork(cfg: Config, s: System, d: nat, status: EndpointStatus, reply: Reply, now: int)
    requires d < |s.deliveries| && s.deliveries[d].endpoint < |s.endpoints|
    requires s.deliveries[d].status in {Pending, Retrying} && s.deliveries[d].attempts < cfg.maxRetries
    ensures var s' := Attempt(cfg, s, d, s.deliveries[d], status, reply, now).0;
      Work(cfg, s'.deliveries) <= Work(cfg, s.deliveries) - if status == EndpointActive then 1 else 0
  {
    if status == EndpointActive {
      var s' := Attempt(cfg, s, d, s.deliveries[d], status, reply, now).0;
      WorkUpdate(cfg, s.deliveries, d, s'.deliveries[d]);
    }
  }

  // ----- Runs -----

  datatype Op =
    | Register
    | DoDispatch(eventId: string, subscribers: seq<nat>)
    | DoPass(batch: seq<nat>, replies: seq<(Reply, int)>, now: int)
    | DoReplay(delivery: nat)

  /** A pass over rows that the query would not return is not a step. */
  ghost function Step(cfg: Config, s: System, op: Op): System {
    match op
    case Register => s.(endpoints := s.endpoints + [Endpoint(EndpointActive, 0)])
    case DoDispatch(eventId, subscribers) => Dispatch(s, eventId, subscribers).0
    case DoPass(batch, replies, now) =>
      if IsBatch(cfg, s, batch, now) && |replies| == |batch| then Pass(cfg, s, batch, replies).0 else s
    case DoReplay(d) => Replay(s, d)
  }

  ghost function Run(cfg: Config, s: System, ops: seq<Op>): System {
    if ops == [] then s else Step(cfg, Run(cfg, s, ops[..|ops| - 1]), ops[|ops| - 1])
  }

  /** No event of the log speaks of an endpoint that does not exist yet. */
  ghost predicate LogKnows(s: System) {
    forall k :: 0 <= k < |s.log| && s.log[k].Posted? ==> s.log[k].endpoint < |s.endpoints|
  }

  lemma {:induction false} NewEndpoint(log: seq<Event>, e: nat)
    requires forall k :: 0 <= k < |log| && log[k].Posted? ==> log[k].endpoint < e
    ensures DeadLetters(log, e) == 0
  {
    if log != [] {
      NewEndpoint(log[..|log| - 1], e);
    }
  }

  lemma QueueKeeps(cfg: Config, s: System, eventId: string, e: nat)
    requires Inv(cfg, s) && LogKnows(s) && e < |s.endpoints|
    ensures Inv(cfg, Queue(s, eventId, e)) && LogKnows(Queue(s, eventId, e))
  {
    LogStep(s.log, Queued(|s.deliveries|));
    assert forall d :: 0 <= d < |s.deliveries| ==> DeliveryOk(cfg, s.deliveries[d], Posts(s.log, d), Delays(s.log, d));
  }

  /** The subscribers that are active, in order. */
  function ActiveOf(endpoints: seq<Endpoint>, subscribers: seq<nat>): (active: seq<nat>)
    ensures forall i :: 0 <= i < |active| ==> IsActive(endpoints, active[i])
  {
    if subscribers == [] then []
    else (if IsActive(endpoints, subscribers[0]) then [subscribers[0]] else []) + ActiveOf(endpoints, subscribers[1..])
  }

  /**
   * A dispatch queues one delivery, for the first active subscriber and only if the event is new, although all
   * subscribers are meant to get one; it succeeds exactly if nobody else was left waiting.
   */
  lemma {:induction false} DispatchReaches(s: System, eventId: string, subscribers: seq<nat>)
    ensures var (s', ok) := Dispatch(s, eventId, subscribers);
      var active := ActiveOf(s.endpoints, subscribers);
      var known := EventKnown(s.deliveries, eventId);
      && s' == (if active == [] || known then s else Queue(s, eventId, active[0]))
      && (ok <==> active == [] || (|active| == 1 && !known))
    decreases |subscribers|
  {
    if subscribers != [] {
      if !IsActive(s.endpoints, subscribers[0]) {
        DispatchReaches(s, eventId, subscribers[1..]);
      } else if !EventKnown(s.deliveries, eventId) {
        var m := Queue(s, eventId, subscribers[0]);
        DispatchReaches(m, eventId, subscribers[1..]);
        assert m.deliveries[|s.deliveries|].eventId == eventId;
      }
    }
  }

  lemma ReplayKeeps(cfg: Config, s: System, d: nat)
    requires Inv(cfg, s)
    ensures Inv(cfg, Replay(s, d))
  {
    LogStep(s.log, Replayed(d));
    assert forall x :: 0 <= x < |s.deliveries| ==> DeliveryOk(cfg, s.deliveries[x], Posts(s.log, x), Delays(s.log, x));
  }

  lemma StepKeeps(cfg: Config, s: System, op: Op)
    requires Inv(cfg, s) && LogKnows(s)
    ensures Inv(cfg, Step(cfg, s, op)) && LogKnows(Step(cfg, s, op))
  {
    match op
    case Register =>
      NewEndpoint(s.log, |s.endpoints|);
    case DoDispatch(eventId, subscribers) =>
      DispatchReaches(s, eventId, subscribers);
      var active := ActiveOf(s.endpoints, subscribers);
      if active != [] {
        QueueKeeps(cfg, s, eventId, active[0]);
      }
    case DoPass(batch, replies, now) =>
      if IsBatch(cfg, s, batch, now) && |replies| == |batch| {
        PassKeeps(cfg, s, batch, replies, now);
        PassProgress(cfg, s, batch, replies, now);
      }
    case DoReplay(d) =>
      ReplayKeeps(cfg, s, d);
  }

  lemma {:induction false} RunKeeps(cfg: Config, ops: seq<Op>)
    ensures var s := Run(cfg, System([], [], []), ops);
      Inv(cfg, s) && LogKnows(s)
  {
    if ops != [] {
      RunKeeps(cfg, ops[..|ops| - 1]);
      StepKeeps(cfg, Run(cfg, System([], [], []), ops[..|ops| - 1]), ops[|ops| - 1]);
    }
  }

  // ----- Theorems over every serial run -----

  /**
   * The posts for a delivery since creation or last replay are its attempts, plus one once delivered, and never
   * exceed the maximum; a retrying delivery has used at least one attempt and has one left; and the delays granted
   * to a delivery never exceed base * (2^(maxRetries-1) - 1).
   */
  lemma PostsMatchAttempts(cfg: Config, ops: seq<Op>, d: nat)
    requires d < |Run(cfg, System([], [], []), ops).deliveries|
    ensures var s := Run(cfg, System([], [], []), ops);
      var row := s.deliveries[d];
      && Posts(s.log, d) == row.attempts + (if row.status == Delivered then 1 else 0)
      && (row.status != Pending ==> 1 <= Posts(s.log, d) <= cfg.maxRetries)
      && (row.status == Pending ==> Posts(s.log, d) == 0)
      && (row.status == Retrying ==> 1 <= row.attempts < cfg.maxRetries)
      && (row.status != Pending ==> Delays(s.log, d) <= cfg.retryBackoffMs * (Pow2(cfg.maxRetries - 1) - 1))
      && (row.status == Pending ==> Delays(s.log, d) == 0)
  {
    RunKeeps(cfg, ops);
    var s := Run(cfg, System([], [], []), ops);
    var row := s.deliveries[d];
    assert DeliveryOk(cfg, row, Posts(s.log, d), Delays(s.log, d));
    if row.status != Pending {
      var n := if row.status == Failed then row.attempts - 1 else row.attempts;
      DelaysGrow(cfg, n, cfg.maxRetries - 1);
      TotalDelayClosed(cfg, cfg.maxRetries - 1);
    }
  }

  lemma {:induction false} DelaysGrow(cfg: Config, m: nat, n: nat)
    requires m <= n
    ensures TotalDelay(cfg, m) <= TotalDelay(cfg, n)
  {
    if m < n {
      DelaysGrow(cfg, m, n - 1);
    }
  }

  /** An endpoint's failure count is its dead letters since its last success, and while active it is below the limit. */
  lemma FailuresMatchDeadLetters(cfg: Config, ops: seq<Op>, e: nat)
    requires e < |Run(cfg, System([], [], []), ops).endpoints|
    ensures var s := Run(cfg, System([], [], []), ops);
      && s.endpoints[e].consecutiveFailures == DeadLetters(s.log, e)
      && (s.endpoints[e].status == EndpointActive ==>
            s.endpoints[e].consecutiveFailures < Max(1, cfg.maxConsecutiveFailures))
  {
    RunKeeps(cfg, ops);
    var s := Run(cfg, System([], [], []), ops);
    assert EndpointOk(cfg, s.endpoints[e], DeadLetters(s.log, e));
  }

  lemma {:induction false} WorkIsNatural(cfg: Config, rows: seq<Delivery>)
    requires forall d :: 0 <= d < |rows| ==> Open(cfg, rows[d]) >= 0
    ensures Work(cfg, rows) >= 0
  {
    if rows != [] {
      WorkIsNatural(cfg, rows[..|rows| - 1]);
    }
  }

  lemma {:induction false} PassesLowerWork(cfg: Config, s: System, passes: seq<Op>)
    requires Inv(cfg, s) && LogKnows(s) && forall i :: 0 <= i < |passes| ==> passes[i].DoPass?
    ensures var s' := Run(cfg, s, passes);
      && Inv(cfg, s') && LogKnows(s')
      && |s'.log| - |s.log| <= Work(cfg, s.deliveries) - Work(cfg, s'.deliveries)
  {
    if passes != [] {
      var n := |passes| - 1;
      PassesLowerWork(cfg, s, passes[..n]);
      var m := Run(cfg, s, passes[..n]);
      StepKeeps(cfg, m, passes[n]);
      var DoPass(batch, replies, now) := passes[n];
      if IsBatch(cfg, m, batch, now) && |replies| == |batch| {
        PassProgress(cfg, m, batch, replies, now);
      }
    }
  }

  /** After any run, passes alone, however many, cannot post more often than the work the queue holds. */
  lemma DrainBound(cfg: Config, ops: seq<Op>, passes: seq<Op>)
    requires cfg.maxRetries >= 0 && forall i :: 0 <= i < |passes| ==> passes[i].DoPass?
    ensures var s := Run(cfg, System([], [], []), ops);
      |Run(cfg, s, passes).log| - |s.log| <= Work(cfg, s.deliveries)
  {
    RunKeeps(cfg, ops);
    var s := Run(cfg, System([], [], []), ops);
    PassesLowerWork(cfg, s, passes);
    var s' := Run(cfg, s, passes);
    assert forall d :: 0 <= d < |s'.deliveries| ==>
      DeliveryOk(cfg, s'.deliveries[d], Posts(s'.log, d), Delays(s'.log, d)) ==> Open(cfg, s'.deliveries[d]) >= 0;
    WorkIsNatural(cfg, s'.deliveries);
  }

  // ----- One delivery per event -----

  ghost predicate SameEvents(rows: seq<Delivery>, rows': seq<Delivery>) {
    |rows| == |rows'| && forall d :: 0 <= d < |rows| ==> rows'[d].eventId == rows[d].eventId
  }

  ghost predicate EventsUnique(rows: seq<Delivery>) {
    forall c, d :: 0 <= c < d < |rows| ==> rows[c].eventId != rows[d].eventId
  }

  lemma {:induction false} PassSameEvents(cfg: Config, s: System, batch: seq<nat>, replies: seq<(Reply, int)>)
    requires InRange(s, batch) && |replies| == |batch|
    ensures SameEvents(s.deliveries, Pass(cfg, s, batch, replies).0.deliveries)
  {
    if batch != [] {
      var n := |batch| - 1;
      PassSameEvents(cfg, s, batch[..n], replies[..n]);
    }
  }

  lemma StepEventsUnique(cfg: Config, s: System, op: Op)
    requires EventsUnique(s.deliveries)
    ensures EventsUnique(Step(cfg, s, op).deliveries)
  {
    var s' := Step(cfg, s, op);
    match op
    case DoDispatch(eventId, subscribers) =>
      DispatchReaches(s, eventId, subscribers);
      if s' != s {
        assert s'.deliveries[|s.deliveries|].eventId == eventId && s'.deliveries[..|s.deliveries|] == s.deliveries;
      }
    case DoPass(batch, replies, now) =>
      if IsBatch(cfg, s, batch, now) && |replies| == |batch| {
        PassSameEvents(cfg, s, batch, replies);
      }
      assert SameEvents(s.deliveries, s'.deliveries);
    case _ =>
      assert SameEvents(s.deliveries, s'.deliveries);
  }

  /** In every run no two deliveries are of the same event. */
  lemma {:induction false} OneDeliveryPerEvent(cfg: Config, ops: seq<Op>)
    ensures EventsUnique(Run(cfg, System([], [], []), ops).deliveries)
  {
    if ops != [] {
      var n := |ops| - 1;
      OneDeliveryPerEvent(cfg, ops[..n]);
      StepEventsUnique(cfg, Run(cfg, System([], [], []), ops[..n]), ops[n]);
    }
  }

  lemma TwoEndpoints(cfg: Config, e: Endpoint)
    requires e == Endpoint(EndpointActive, 0)
    ensures Run(cfg, System([], [], []), [Register, Register]) == System([e, e], [], [])
  {
    var ops := [Register, Register];
    assert ops[..1] == [Register] && ops[..1][..0] == [];
    assert Run(cfg, System([], [], []), ops[..1]) == System([e], [], []);
  }

  lemma BothActive(e: Endpoint, subscribers: seq<nat>)
    requires e.status == EndpointActive && subscribers == [0, 1]
    ensures ActiveOf([e, e], subscribers) == [0, 1]
  {
    assert subscribers[1..] == [1] && subscribers[1..][1..] == [];
    assert ActiveOf([e, e], subscribers[1..]) == [1];
  }

  /** Two subscribed endpoints, one event: only the first gets a delivery, and the dispatch fails. */
  lemma SecondEndpointMissed(cfg: Config, subscribers: seq<nat>)
    requires subscribers == [0, 1]
    ensures var s := Run(cfg, System([], [], []), [Register, Register]);
      && ActiveOf(s.endpoints, subscribers) == [0, 1] && !Dispatch(s, "e", subscribers).1
      && Step(cfg, s, DoDispatch("e", subscribers)).deliveries == [Delivery("e", 0, Pending, 0, None)]
  {
    var e := Endpoint(EndpointActive, 0);
    TwoEndpoints(cfg, e);
    BothActive(e, subscribers);
    DispatchReaches(System([e, e], [], []), "e", subscribers);
  }

  // ----- What an attempt decides -----

  /** A failure that is worth another attempt: no answer, a status of 0, or a server error. */
  predicate Transient(status: Option<int>) {
    match status
    case None => true
    case Some(code) => code == 0 || code >= 500
  }

  /**
   * The row after its attempt. To an endpoint that is not active nothing is sent. A refused delivery is retried exactly
   * if the failure is transient and this was not its last attempt, and then after a delay that doubles with each
   * attempt.
   */
  function RowAfter(cfg: Config, row: Delivery, status: EndpointStatus, reply: Reply, now: int): Delivery {
    if status != EndpointActive then row
    else
      match reply
      case Accepted => row.(status := Delivered)
      case Refused(code) =>
        if row.attempts + 1 < cfg.maxRetries && Transient(code)
        then
          var delay := cfg.retryBackoffMs * Pow2(row.attempts);
          row.(status := Retrying, attempts := row.attempts + 1, nextRetryAt := Some(now + delay))
        else row.(status := Failed, attempts := row.attempts + 1)
  }

  /** An attempt changes its own row, its endpoint's row, and nothing else, and returns the status it has led to. */
  lemma AttemptDecides(cfg: Config, s: System, d: nat, status: EndpointStatus, reply: Reply, now: int)
    requires d < |s.deliveries| && s.deliveries[d].endpoint < |s.endpoints|
    ensures var row := s.deliveries[d];
      var (s', result) := Attempt(cfg, s, d, row, status, reply, now);
      var row' := RowAfter(cfg, row, status, reply, now);
      && s'.deliveries == s.deliveries[d := row']
      && result == (if status != EndpointActive then Failed else row'.status)
      && |s'.endpoints| == |s.endpoints|
      && (forall e :: 0 <= e < |s.endpoints| && e != row.endpoint ==> s'.endpoints[e] == s.endpoints[e])
      && var before, after := s.endpoints[row.endpoint], s'.endpoints[row.endpoint];
      && (status != EndpointActive || row'.status == Retrying ==> after == before)
      && (status == EndpointActive && reply.Accepted? ==> after == before.(consecutiveFailures := 0))
      && (status == EndpointActive && row'.status == Failed ==>
            && after.consecutiveFailures == before.consecutiveFailures + 1
            && after.status == if after.consecutiveFailures >= cfg.maxConsecutiveFailures then EndpointFailed
                               else before.status)
  {
    var row := s.deliveries[d];
    if status != EndpointActive {
      assert s.deliveries[d := row] == s.deliveries;
    } else {
      AttemptShape(cfg, s, d, reply, now);
      RetryDecision(cfg, row.attempts + 1, reply);
      assert BackoffDelay(cfg, row.attempts + 1) == cfg.retryBackoffMs * Pow2(row.attempts);
      var rows' := Attempt(cfg, s, d, row, status, reply, now).0.deliveries;
      assert rows' == s.deliveries[d := rows'[d]];
    }
  }

  lemma RetryDecision(cfg: Config, attempt: nat, reply: Reply)
    ensures ShouldRetry(cfg, attempt, reply) <==>
      attempt < cfg.maxRetries && reply.Refused? && Transient(reply.responseStatus)
  {
  }

  /** Which of the three answers an attempt to an active endpoint gets, in the terms of the HTTP reply. */
  lemma RetriedExactlyIf(cfg: Config, s: System, d: nat, reply: Reply, now: int)
    requires d < |s.deliveries| && s.deliveries[d].endpoint < |s.endpoints|
    ensures var row := s.deliveries[d];
      var result := Attempt(cfg, s, d, row, EndpointActive, reply, now).1;
      var more := row.attempts + 1 < cfg.maxRetries;
      && (result == Delivered <==> reply.Accepted?)
      && (result == Retrying <==>
            && reply.Refused? && more
            && (|| reply.responseStatus == None || reply.responseStatus == Some(0)
                || (reply.responseStatus.Some? && reply.responseStatus.value >= 500)))
      && (result == Failed <==>
            && reply.Refused?
            && (|| !more
                || (reply.responseStatus.Some? && reply.responseStatus.value != 0 && reply.responseStatus.value < 500)))
  {
    AttemptDecides(cfg, s, d, EndpointActive, reply, now);
  }

  /**
   * A delivery refused at `at` with a transient failure and attempts left may be fetched again exactly from the end of
   * its delay on, base * 2^(attempts before); one that is delivered or dead-lettered may not be fetched at all, a fresh
   * or replayed one at once.
   */
  lemma FetchedExactlyFrom(cfg: Config, row: Delivery, reply: Reply, at: int, now: int)
    requires row.attempts < cfg.maxRetries
    ensures var row' := RowAfter(cfg, row, EndpointActive, reply, at);
      Due(cfg, row', now) <==>
      reply.Refused? && row.attempts + 1 < cfg.maxRetries && Transient(reply.responseStatus)
        && at + cfg.retryBackoffMs * Pow2(row.attempts) <= now
    ensures row.status == Pending ==> Due(cfg, row, now)
    ensures row.status in {Delivered, Failed} ==> !Due(cfg, row, now)
  {
  }

  /** The k-th delivery of a pass ends as its own reply decides, by its endpoint's status at the start of the pass. */
  lemma {:induction false} PassDecides(
      cfg: Config, s: System, batch: seq<nat>, replies: seq<(Reply, int)>, now: int, k: nat)
    requires IsBatch(cfg, s, batch, now) && |replies| == |batch| && k < |batch|
    ensures var row := s.deliveries[batch[k]];
      Pass(cfg, s, batch, replies).0.deliveries[batch[k]]
        == RowAfter(cfg, row, s.endpoints[row.endpoint].status, replies[k].0, replies[k].1)
  {
    var n := |batch| - 1;
    PassStep(cfg, s, batch, replies, now);
    var m := Pass(cfg, s, batch[..n], replies[..n]).0;
    var row := s.deliveries[batch[n]];
    AttemptDecides(cfg, m, batch[n], s.endpoints[row.endpoint].status, replies[n].0, replies[n].1);
    if k < n {
      PassDecides(cfg, s, batch[..n], replies[..n], now, k);
    }
  }

  /** How many deliveries of a batch end in a status; those skipped for their endpoint count as failed. */
  function CountEnding(
      cfg: Config, s: System, batch: seq<nat>, replies: seq<(Reply, int)>, status: DeliveryStatus): nat
    requires InRange(s, batch) && |replies| == |batch|
  {
    if batch == [] then 0
    else
      var n := |batch| - 1;
      var row := s.deliveries[batch[n]];
      var active := s.endpoints[row.endpoint].status == EndpointActive;
      var end := if active then RowAfter(cfg, row, EndpointActive, replies[n].0, replies[n].1).status else Failed;
      CountEnding(cfg, s, batch[..n], replies[..n], status) + if end == status then 1 else 0
  }

  /** The three counters of a pass are the deliveries that ended so. */
  lemma {:induction false} PassCounts(cfg: Config, s: System, batch: seq<nat>, replies: seq<(Reply, int)>, now: int)
    requires IsBatch(cfg, s, batch, now) && |replies| == |batch|
    ensures InRange(s, batch)
    ensures Pass(cfg, s, batch, replies).1
      == Counts(CountEnding(cfg, s, batch, replies, Delivered), CountEnding(cfg, s, batch, replies, Failed),
                CountEnding(cfg, s, batch, replies, Retrying))
  {
    if batch != [] {
      var n := |batch| - 1;
      PassStep(cfg, s, batch, replies, now);
      PassCounts(cfg, s, batch[..n], replies[..n], now);
      var m := Pass(cfg, s, batch[..n], replies[..n]).0;
      var row := s.deliveries[batch[n]];
      AttemptDecides(cfg, m, batch[n], s.endpoints[row.endpoint].status, replies[n].0, replies[n].1);
    }
  }

  /** A replay makes a dead letter a fresh delivery, and changes nothing else; other deliveries cannot be replayed. */
  lemma ReplayDecides(s: System, d: nat)
    ensures var dead := d < |s.deliveries| && s.deliveries[d].status == Failed;
      var s' := Replay(s, d);
      && (!dead ==> s' == s)
      && (dead ==>
            var row := s.deliveries[d];
            && s'.deliveries == s.deliveries[d := Delivery(row.eventId, row.endpoint, Pending, 0, None)]
            && s'.endpoints == s.endpoints)
  {
  }

  // ----- When an endpoint is disabled -----

  /** At some moment of the log the endpoint had as many dead letters since its last success as disable it. */
  ghost predicate Tripped(cfg: Config, log: seq<Event>, e: nat) {
    exists k :: 0 < k <= |log| && TrippedAt(cfg, log[..k], e)
  }

  ghost predicate TrippedAt(cfg: Config, log: seq<Event>, e: nat) {
    && log != []
    && var last := log[|log| - 1];
    && last.Posted? && last.endpoint == e && last.effect == DeadLettered
    && DeadLetters(log, e) >= cfg.maxConsecutiveFailures
  }

  ghost predicate StatusOk(cfg: Config, s: System) {
    forall e :: 0 <= e < |s.endpoints| ==>
      s.endpoints[e].status == if Tripped(cfg, s.log, e) then EndpointFailed else EndpointActive
  }

  lemma TrippedNext(cfg: Config, log: seq<Event>, event: Event, e: nat)
    ensures Tripped(cfg, log + [event], e) <==> Tripped(cfg, log, e) || TrippedAt(cfg, log + [event], e)
  {
    var log' := log + [event];
    assert log'[..|log'|] == log' && forall k :: 0 <= k <= |log| ==> log'[..k] == log[..k];
    if Tripped(cfg, log, e) {
      var k :| 0 < k <= |log| && TrippedAt(cfg, log[..k], e);
      assert TrippedAt(cfg, log'[..k], e);
    }
  }

  lemma AttemptStatus(cfg: Config, s: System, d: nat, status: EndpointStatus, reply: Reply, now: int)
    requires Inv(cfg, s) && StatusOk(cfg, s) && d < |s.deliveries|
    ensures StatusOk(cfg, Attempt(cfg, s, d, s.deliveries[d], status, reply, now).0)
  {
    if status == EndpointActive {
      var row := s.deliveries[d];
      var s' := Attempt(cfg, s, d, row, status, reply, now).0;
      var event := Posted(d, row.endpoint, EffectOf(cfg, row, reply));
      AttemptShape(cfg, s, d, reply, now);
      forall e | 0 <= e < |s'.endpoints|
        ensures s'.endpoints[e].status == if Tripped(cfg, s'.log, e) then EndpointFailed else EndpointActive
      {
        TrippedNext(cfg, s.log, event, e);
        PostedAccounts(s.log, d, row.endpoint, event.effect, 0, e);
        assert EndpointOk(cfg, s.endpoints[e], DeadLetters(s.log, e));
      }
    }
  }

  lemma {:induction false} PassStatus(cfg: Config, s: System, batch: seq<nat>, replies: seq<(Reply, int)>, now: int)
    requires Inv(cfg, s) && StatusOk(cfg, s) && IsBatch(cfg, s, batch, now) && |replies| == |batch|
    ensures StatusOk(cfg, Pass(cfg, s, batch, replies).0)
  {
    if batch != [] {
      var n := |batch| - 1;
      PassStep(cfg, s, batch, replies, now);
      PassStatus(cfg, s, batch[..n], replies[..n], now);
      PassKeeps(cfg, s, batch[..n], replies[..n], now);
      var row := s.deliveries[batch[n]];
      AttemptStatus(cfg, Pass(cfg, s, batch[..n], replies[..n]).0, batch[n], s.endpoints[row.endpoint].status,
                    replies[n].0, replies[n].1);
    }
  }

  lemma {:induction false} NeverTripped(cfg: Config, log: seq<Event>, e: nat)
    requires forall k :: 0 <= k < |log| && log[k].Posted? ==> log[k].endpoint != e
    ensures !Tripped(cfg, log, e)
  {
    forall k | 0 < k <= |log|
      ensures !TrippedAt(cfg, log[..k], e)
    {
      assert log[..k][k - 1] == log[k - 1];
    }
  }

  lemma StepStatus(cfg: Config, s: System, op: Op)
    requires Inv(cfg, s) && LogKnows(s) && StatusOk(cfg, s)
    ensures StatusOk(cfg, Step(cfg, s, op))
  {
    match op
    case Register =>
      NeverTripped(cfg, s.log, |s.endpoints|);
    case DoDispatch(eventId, subscribers) =>
      DispatchReaches(s, eventId, subscribers);
      forall e | 0 <= e < |s.endpoints|
        ensures Tripped(cfg, s.log + [Queued(|s.deliveries|)], e) == Tripped(cfg, s.log, e)
      {
        TrippedNext(cfg, s.log, Queued(|s.deliveries|), e);
      }
    case DoPass(batch, replies, now) =>
      if IsBatch(cfg, s, batch, now) && |replies| == |batch| {
        PassStatus(cfg, s, batch, replies, now);
      }
    case DoReplay(d) =>
      forall e | 0 <= e < |s.endpoints|
        ensures Tripped(cfg, s.log + [Replayed(d)], e) == Tripped(cfg, s.log, e)
      {
        TrippedNext(cfg, s.log, Replayed(d), e);
      }
  }

  /**
   * In every run an endpoint is FAILED exactly if at some moment its deliveries dead-lettered since its last success
   * had reached the maximum, and otherwise it is ACTIVE.
   */
  lemma {:induction false} DisabledExactlyIf(cfg: Config, ops: seq<Op>)
    ensures StatusOk(cfg, Run(cfg, System([], [], []), ops))
  {
    if ops != [] {
      var n := |ops| - 1;
      DisabledExactlyIf(cfg, ops[..n]);
      RunKeeps(cfg, ops[..n]);
      StepStatus(cfg, Run(cfg, System([], [], []), ops[..n]), ops[n]);
    }
  }
}
