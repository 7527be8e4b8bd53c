/**
 * Fixed-window rate limiting: one counter per API key, endpoint and aligned window, shared by the API
 * limiter and the authentication limiter, with records of old windows purged on the way and by a
 * periodic cleanup. Times are milliseconds.
 */
module RateLimit {
  import opened Prelude

  datatype Slot = Slot(key: string, endpoint: string, start: int)

  type Table = map<Slot, nat>

  /** The database call that fails during a check, if any. */
  datatype Fault = Healthy | FindFails | PurgeFails | CreateFails | UpdateFails

  datatype Verdict = Verdict(allowed: bool, remaining: int, resetTime: int, limit: int)

  function WindowStart(now: int, windowMs: int): int
    requires windowMs > 0
  {
    now / windowMs * windowMs
  }

  /** `deleteMany` of the older windows of one key and endpoint. */
  function Purge(t: Table, key: string, endpoint: string, before: int): Table {
    map s | s in t && !(s.key == key && s.endpoint == endpoint && s.start < before) :: t[s]
  }

  /** `cleanupOldRecords`. */
  function Sweep(t: Table, now: int, olderThanMs: int): Table {
    map s | s in t && !(s.start < now - olderThanMs) :: t[s]
  }

  function Closed(windowMs: int, maxRequests: int, now: int): Verdict {
    Verdict(false, 0, now + windowMs, maxRequests)
  }

  function Check(t: Table, key: string, endpoint: string, windowMs: int, maxRequests: int, now: int, fault: Fault)
    : (Table, Verdict)
    requires windowMs > 0
  {
    var slot := Slot(key, endpoint, WindowStart(now, windowMs));
    if fault == FindFails then (t, Closed(windowMs, maxRequests, now))
    else if slot !in t then
      if fault == PurgeFails then (t, Closed(windowMs, maxRequests, now))
      else
        var purged := Purge(t, key, endpoint, slot.start);
        if fault == CreateFails then (purged, Closed(windowMs, maxRequests, now))
        else (purged[slot := 1], Verdict(true, maxRequests - 1, slot.start + windowMs, maxRequests))
    else if t[slot] >= maxRequests then (t, Verdict(false, 0, slot.start + windowMs, maxRequests))
    else if fault == UpdateFails then (t, Closed(windowMs, maxRequests, now))
    else (t[slot := t[slot] + 1], Verdict(true, maxRequests - (t[slot] + 1), slot.start + windowMs, maxRequests))
  }

  /** A record refers to an API key, so for a key that does not exist the insert fails. */
  function Constrained(apiKeys: set<string>, key: string, fault: Fault): Fault {
    if key !in apiKeys && fault in {Healthy, UpdateFails} then CreateFails else fault
  }

  const AUTH_ENDPOINT := "POST /auth/authenticate"

  function AuthKey(ipAddress: string): string {
    "auth-rate-limit:" + ipAddress
  }

  /** The check reaches a record that is already at the limit, as opposed to a failing database call. */
  predicate AtLimit(t: Table, key: string, endpoint: string, windowMs: int, maxRequests: int, now: int, fault: Fault)
    requires windowMs > 0
  {
    var slot := Slot(key, endpoint, WindowStart(now, windowMs));
    fault != FindFails && slot in t && t[slot] >= maxRequests
  }

  /** The advertised wait in seconds: to the window's end, or a whole window when the database failed. */
  function RetryAfter(atLimit: bool, v: Verdict, windowMs: int, later: int): Option<int> {
    if v.allowed then None
    else if atLimit then Some(CeilDiv(v.resetTime - later, 1000))
    else Some(CeilDiv(windowMs, 1000))
  }

  class RateLimitService {
    var records: Table
    /** The ids of the API keys, of all there ever are. */
    const apiKeys: set<string>

    /** The foreign key of the table. */
    ghost predicate Valid()
      reads this
    {
      forall s :: s in records ==> s.key in apiKeys
    }

    constructor (apiKeys: set<string>)
      ensures records == map[] && this.apiKeys == apiKeys && Valid()
    {
      this.apiKeys, records := apiKeys, map[];
    }

    method CheckRateLimit(key: string, endpoint: string, windowMs: int, maxRequests: int, now: int, fault: Fault)
      returns (v: Verdict)
      requires windowMs > 0 && Valid()
      modifies this
      ensures Valid()
      ensures (records, v)
        == Check(old(records), key, endpoint, windowMs, maxRequests, now, Constrained(apiKeys, key, fault))
      ensures key !in apiKeys ==> !v.allowed
    {
      var slot := Slot(key, endpoint, WindowStart(now, windowMs));
      var closed := Verdict(false, 0, now + windowMs, maxRequests);
      if fault == FindFails {
        return closed;
      }
      if slot !in records {
        if fault == PurgeFails {
          return closed;
        }
        records := Purge(records, key, endpoint, slot.start);
        if fault == CreateFails || key !in apiKeys {
          return closed;
        }
        records := records[slot := 1];
        return Verdict(true, maxRequests - 1, slot.start + windowMs, maxRequests);
      }
      if records[slot] >= maxRequests {
        return Verdict(false, 0, slot.start + windowMs, maxRequests);
      }
      if fault == UpdateFails {
        return closed;
      }
      records := records[slot := records[slot] + 1];
      return Verdict(true, maxRequests - records[slot], slot.start + windowMs, maxRequests);
    }

    /** The authentication limiter; `later` is the clock when the wait is computed. */
    method CheckAuthRateLimit(ipAddress: string, windowMs: int, maxRequests: int, now: int, later: int, fault: Fault)
      returns (v: Verdict, retryAfterSeconds: Option<int>)
      requires windowMs > 0 && Valid()
      modifies this
      ensures Valid()
      ensures var key := AuthKey(ipAddress);
        var f := Constrained(apiKeys, key, fault);
        && (records, v) == Check(old(records), key, AUTH_ENDPOINT, windowMs, maxRequests, now, f)
        && retryAfterSeconds == RetryAfter(
             AtLimit(old(records), key, AUTH_ENDPOINT, windowMs, maxRequests, now, f), v, windowMs, later)
      ensures AuthKey(ipAddress) !in apiKeys ==> !v.allowed && retryAfterSeconds == Some(CeilDiv(windowMs, 1000))
    {
      var key := AuthKey(ipAddress);
      var atLimit := AtLimit(records, key, AUTH_ENDPOINT, windowMs, maxRequests, now, fault);
      v := CheckRateLimit(key, AUTH_ENDPOINT, windowMs, maxRequests, now, fault);
      retryAfterSeconds := None;
      if !v.allowed {
        if atLimit {
          retryAfterSeconds := Some(CeilDiv(v.resetTime - later, 1000));
        } else {
          retryAfterSeconds := Some(CeilDiv(windowMs, 1000));
        }
      }
    }

    method CleanupOldRecords(now: int, olderThanMs: int) returns (count: nat)
      modifies this
      ensures old(Valid()) ==> Valid()
      ensures records == Sweep(old(records), now, olderThanMs)
      ensures count == |old(records)| - |records|
    {
      var old_ := set s | s in records && s.start < now - olderThanMs;
      count := |old_|;
      assert |records.Keys - old_| == |records.Keys| - |old_|;
      records := map s | s in records && !(s.start < now - olderThanMs) :: records[s];
      assert records.Keys == old(records).Keys - old_;
    }
  }

  // ----- Runs -----

  datatype Op =
    | Request(key: string, endpoint: string, windowMs: int, maxRequests: int, time: int, fault: Fault)
    | Cleanup(time: int, olderThanMs: int)

  datatype Entry = Entry(op: Op, admitted: bool)

  function Step(t: Table, op: Op): (Table, bool)
    requires op.Request? ==> op.windowMs > 0
  {
    match op
    case Request(key, endpoint, windowMs, maxRequests, now, fault) =>
      var (t', v) := Check(t, key, endpoint, windowMs, maxRequests, now, fault);
      (t', v.allowed)
    case Cleanup(now, olderThanMs) => (Sweep(t, now, olderThanMs), false)
  }

  predicate Configured(ops: seq<Op>) {
    forall i :: 0 <= i < |ops| && ops[i].Request? ==> ops[i].windowMs > 0
  }

  /** The table and the log after a run that starts with no records. */
  function Run(ops: seq<Op>): (r: (Table, seq<Entry>))
    requires Configured(ops)
    ensures |r.1| == |ops| && forall i :: 0 <= i < |ops| ==> r.1[i].op == ops[i]
  {
    if ops == [] then (map[], [])
    else
      var op := ops[|ops| - 1];
      var (t, log) := Run(ops[..|ops| - 1]);
      var (t', admitted) := Step(t, op);
      (t', log + [Entry(op, admitted)])
  }

  /** Requests of one stream in [lo, hi), all of them or only the admitted ones. */
  function Count(log: seq<Entry>, key: string, endpoint: string, lo: int, hi: int, admittedOnly: bool): nat {
    if log == [] then 0
    else
      var e := log[|log| - 1];
      var here := e.op.Request? && e.op.key == key && e.op.endpoint == endpoint && lo <= e.op.time < hi
                  && (admittedOnly ==> e.admitted);
      Count(log[..|log| - 1], key, endpoint, lo, hi, admittedOnly) + if here then 1 else 0
  }

  /**
   * The assumptions on a run as seen by one stream: the clock does not run backwards, the stream keeps its
   * configuration, and no cleanup reaches into the window it runs in. Other streams are unconstrained.
   */
  ghost predicate Orderly(ops: seq<Op>, key: string, endpoint: string, w: int, m: int) {
    && w > 0 && Configured(ops)
    && (forall i, j :: 0 <= i < j < |ops| ==> ops[i].time <= ops[j].time)
    && (forall i :: 0 <= i < |ops| && ops[i].Request? && ops[i].key == key && ops[i].endpoint == endpoint ==>
          ops[i].windowMs == w && ops[i].maxRequests == m)
    && (forall i :: 0 <= i < |ops| && ops[i].Cleanup? ==> ops[i].olderThanMs >= ops[i].time % w)
  }

  ghost predicate HealthyIn(ops: seq<Op>, key: string, endpoint: string, lo: int, hi: int) {
    forall i :: 0 <= i < |ops| && ops[i].Request? && ops[i].key == key && ops[i].endpoint == endpoint ==>
      lo <= ops[i].time < hi ==> ops[i].fault == Healthy
  }

  // ----- Aligned windows -----

  ghost predicate Aligned(start: int, w: int)
    requires w > 0
  {
    WindowStart(start, w) == start
  }

  lemma WindowBounds(now: int, w: int)
    requires w > 0
    ensures WindowStart(now, w) <= now < WindowStart(now, w) + w
    ensures WindowStart(now, w) == now - now % w
    ensures Aligned(WindowStart(now, w), w) && Aligned(WindowStart(now, w) + w, w)
  {
    var q := now / w;
    assert now == q * w + now % w;
    forall p
      ensures p * w / w == p
    {
      Multiples(p, p * w / w, w);
      assert p * w == p * w / w * w + p * w % w;
    }
    assert (q + 1) * w == q * w + w;
  }

  /** An aligned window is the window of exactly the instants it contains. */
  lemma WindowOf(start: int, now: int, w: int)
    requires w > 0 && Aligned(start, w)
    ensures start <= now < start + w <==> WindowStart(now, w) == start
    ensures start + w <= now <==> start < WindowStart(now, w)
    ensures now < start <==> WindowStart(now, w) < start
    ensures start < WindowStart(now, w) ==> start + w <= WindowStart(now, w)
    ensures WindowStart(now, w) == now - now % w
  {
    WindowBounds(now, w);
    Multiples(start / w, now / w, w);
  }

  // ----- One step, seen by one stream -----

  predicate InStream(op: Op, key: string, endpoint: string) {
    op.Request? && op.key == key && op.endpoint == endpoint
  }

  function Stored(t: Table, slot: Slot): nat {
    if slot in t then t[slot] else 0
  }

  /** A request of the stream in its window counts one, or is refused with the table at the limit. */
  lemma OwnRequest(t: Table, op: Op, start: int)
    requires op.Request? && op.windowMs > 0 && Aligned(start, op.windowMs) && start <= op.time < start + op.windowMs
    ensures var (t', admitted) := Step(t, op);
      var slot := Slot(op.key, op.endpoint, start);
      && Stored(t', slot) == Stored(t, slot) + (if admitted then 1 else 0)
      && (slot in t' <==> slot in t || admitted)
      && (admitted ==> slot !in t || t[slot] < op.maxRequests)
      && (op.fault == Healthy && !admitted ==> slot in t && t[slot] >= op.maxRequests)
  {
    WindowOf(start, op.time, op.windowMs);
  }

  /** No other step touches the record of a window that is not yet over. */
  lemma OtherStep(t: Table, op: Op, key: string, endpoint: string, w: int, start: int)
    requires w > 0 && Aligned(start, w) && op.time < start + w
    requires op.Request? ==> op.windowMs > 0
    requires op.Cleanup? ==> op.olderThanMs >= op.time % w
    requires InStream(op, key, endpoint) ==> op.windowMs == w && op.time < start
    ensures var slot := Slot(key, endpoint, start);
      var t' := Step(t, op).0;
      (slot in t' <==> slot in t) && Stored(t', slot) == Stored(t, slot)
  {
    WindowOf(start, op.time, w);
  }

  // ----- The invariant of one stream -----

  /** What the table and the log say about a window of a stream once `clock` has been reached. */
  ghost predicate Faithful(
      t: Table, log: seq<Entry>, key: string, endpoint: string, w: int, m: int, start: int, clock: int, healthy: bool)
  {
    var slot := Slot(key, endpoint, start);
    var admitted := Count(log, key, endpoint, start, start + w, true);
    && admitted <= Max(1, m)
    && (healthy ==> admitted == Min(Count(log, key, endpoint, start, start + w, false), Max(1, m)))
    && (clock < start + w ==> (slot in t <==> admitted > 0) && Stored(t, slot) == admitted)
  }

  lemma FaithfulStep(
      t: Table, log: seq<Entry>, op: Op, key: string, endpoint: string, w: int, m: int, start: int, healthy: bool)
    requires w > 0 && Aligned(start, w)
    requires Faithful(t, log, key, endpoint, w, m, start, op.time, healthy)
    requires op.Request? ==> op.windowMs > 0
    requires op.Cleanup? ==> op.olderThanMs >= op.time % w
    requires InStream(op, key, endpoint) ==> op.windowMs == w && op.maxRequests == m
    requires InStream(op, key, endpoint) && healthy && start <= op.time < start + w ==> op.fault == Healthy
    ensures var (t', admitted) := Step(t, op);
      Faithful(t', log + [Entry(op, admitted)], key, endpoint, w, m, start, op.time, healthy)
  {
    var (t', admitted) := Step(t, op);
    var log' := log + [Entry(op, admitted)];
    assert log'[..|log|] == log;
    if InStream(op, key, endpoint) && start <= op.time < start + w {
      OwnRequest(t, op, start);
    } else if op.time < start + w {
      OtherStep(t, op, key, endpoint, w, start);
    }
  }

  lemma {:induction false} StreamInvariant(
      ops: seq<Op>, key: string, endpoint: string, w: int, m: int, start: int, clock: int, healthy: bool)
    requires Orderly(ops, key, endpoint, w, m) && Aligned(start, w)
    requires forall i :: 0 <= i < |ops| ==> ops[i].time <= clock
    requires healthy ==> HealthyIn(ops, key, endpoint, start, start + w)
    ensures Faithful(Run(ops).0, Run(ops).1, key, endpoint, w, m, start, clock, healthy)
  {
    if ops != [] {
      var op := ops[|ops| - 1];
      var front := ops[..|ops| - 1];
      StreamInvariant(front, key, endpoint, w, m, start, op.time, healthy);
      FaithfulStep(Run(front).0, Run(front).1, op, key, endpoint, w, m, start, healthy);
    }
  }

  // ----- Theorems over whole runs -----

  /** Each aligned window admits at most the limit, and exactly min(requests, limit) when no call fails. */
  lemma WindowAdmits(ops: seq<Op>, key: string, endpoint: string, w: int, m: int, start: int)
    requires Orderly(ops, key, endpoint, w, m) && Aligned(start, w)
    ensures var log := Run(ops).1;
      var admitted := Count(log, key, endpoint, start, start + w, true);
      && admitted <= Max(1, m)
      && (HealthyIn(ops, key, endpoint, start, start + w) ==>
            admitted == Min(Count(log, key, endpoint, start, start + w, false), Max(1, m)))
  {
    var clock := if ops == [] then 0 else ops[|ops| - 1].time;
    StreamInvariant(ops, key, endpoint, w, m, start, clock, HealthyIn(ops, key, endpoint, start, start + w));
  }

  lemma {:induction false} CountSplits(
      log: seq<Entry>, key: string, endpoint: string, lo: int, mid: int, hi: int, a: int, b: int)
    requires lo <= a && b <= hi
    ensures Count(log, key, endpoint, a, b, true)
      <= Count(log, key, endpoint, lo, mid, true) + Count(log, key, endpoint, mid, hi, true)
  {
    if log != [] {
      CountSplits(log[..|log| - 1], key, endpoint, lo, mid, hi, a, b);
    }
  }

  /** Any interval of the window's length, wherever it starts, admits at most twice the limit. */
  lemma SlidingBound(ops: seq<Op>, key: string, endpoint: string, w: int, m: int, from: int)
    requires Orderly(ops, key, endpoint, w, m)
    ensures Count(Run(ops).1, key, endpoint, from, from + w, true) <= 2 * Max(1, m)
  {
    var start := WindowStart(from, w);
    WindowBounds(from, w);
    WindowAdmits(ops, key, endpoint, w, m, start);
    WindowAdmits(ops, key, endpoint, w, m, start + w);
    CountSplits(Run(ops).1, key, endpoint, start, start + w, start + w + w, from, from + w);
  }

  lemma {:induction false} NoneInFuture(log: seq<Entry>, key: string, endpoint: string, lo: int, hi: int)
    requires forall i :: 0 <= i < |log| && InStream(log[i].op, key, endpoint) ==> log[i].op.time < lo
    ensures Count(log, key, endpoint, lo, hi, true) == 0
  {
    if log != [] {
      NoneInFuture(log[..|log| - 1], key, endpoint, lo, hi);
    }
  }

  /** A request `op` met in table t is refused, and the wait told at `later` is over by `retryAt`. */
  ghost predicate WaitedOut(t: Table, op: Op, later: int, retryAt: int) {
    && op.Request? && op.windowMs > 0 && op.time <= later
    && var v := Check(t, op.key, op.endpoint, op.windowMs, op.maxRequests, op.time, op.fault).1;
    && var atLimit := AtLimit(t, op.key, op.endpoint, op.windowMs, op.maxRequests, op.time, op.fault);
    && !v.allowed
    && retryAt >= later + 1000 * RetryAfter(atLimit, v, op.windowMs, later).value
  }

  /** Whichever way a request is refused, the advertised wait ends after its window. */
  lemma WaitOutlastsWindow(t: Table, op: Op, later: int, retryAt: int)
    requires WaitedOut(t, op, later, retryAt)
    ensures op.Request? && op.windowMs > 0 && op.time < WindowStart(retryAt, op.windowMs)
  {
    var w := op.windowMs;
    var v := Check(t, op.key, op.endpoint, w, op.maxRequests, op.time, op.fault).1;
    CeilDivBounds(w, 1000);
    CeilDivBounds(v.resetTime - later, 1000);
    WindowBounds(op.time, w);
    assert retryAt >= WindowStart(op.time, w) + w;
    WindowOf(WindowStart(op.time, w), retryAt, w);
  }

  lemma QuietSlot(ops: seq<Op>, key: string, endpoint: string, w: int, m: int, start: int, clock: int)
    requires Orderly(ops, key, endpoint, w, m) && Aligned(start, w) && clock < start + w
    requires forall i :: 0 <= i < |ops| ==> ops[i].time <= clock
    requires forall i :: 0 <= i < |ops| && InStream(ops[i], key, endpoint) ==> ops[i].time < start
    ensures Configured(ops) && Slot(key, endpoint, start) !in Run(ops).0
  {
    StreamInvariant(ops, key, endpoint, w, m, start, clock, false);
    var (t, log) := Run(ops);
    NoneInFuture(log, key, endpoint, start, start + w);
    EmptyWindow(t, log, key, endpoint, w, m, start, clock);
  }

  lemma EmptyWindow(t: Table, log: seq<Entry>, key: string, endpoint: string, w: int, m: int, start: int, clock: int)
    requires Faithful(t, log, key, endpoint, w, m, start, clock, false) && clock < start + w
    requires Count(log, key, endpoint, start, start + w, true) == 0
    ensures Slot(key, endpoint, start) !in t
  {
  }

  /** A stream that has been quiet since before the running window is admitted. */
  lemma QuietStreamAdmitted(ops: seq<Op>, retry: Op, m: int)
    requires retry.Request? && retry.windowMs > 0 && retry.fault == Healthy
    requires Orderly(ops, retry.key, retry.endpoint, retry.windowMs, m)
    requires forall i :: 0 <= i < |ops| ==> ops[i].time <= retry.time
    requires forall i :: 0 <= i < |ops| && InStream(ops[i], retry.key, retry.endpoint) ==>
      ops[i].time < WindowStart(retry.time, retry.windowMs)
    ensures Configured(ops) && Step(Run(ops).0, retry).1
  {
    var w := retry.windowMs;
    var start := WindowStart(retry.time, w);
    WindowBounds(retry.time, w);
    QuietSlot(ops, retry.key, retry.endpoint, w, m, start, retry.time);
    EmptySlotAdmits(Run(ops).0, retry);
  }

  lemma EmptySlotAdmits(t: Table, op: Op)
    requires op.Request? && op.windowMs > 0 && op.fault == Healthy
    requires Slot(op.key, op.endpoint, WindowStart(op.time, op.windowMs)) !in t
    ensures Step(t, op).1
  {
  }

  /**
   * A caller refused at the j-th step of a run, told at `later` to wait, who then sends nothing until at
   * least that wait has passed, is admitted, whatever other streams and cleanups do meanwhile.
   */
  lemma RetryAfterIsEnough(ops: seq<Op>, j: nat, later: int, retry: Op, m: int)
    requires j < |ops| && retry.Request? && retry.windowMs > 0 && retry.fault == Healthy
    requires Orderly(ops, retry.key, retry.endpoint, retry.windowMs, m)
    requires InStream(ops[j], retry.key, retry.endpoint)
    requires forall i :: j < i < |ops| ==> !InStream(ops[i], retry.key, retry.endpoint)
    requires forall i :: 0 <= i < |ops| ==> ops[i].time <= retry.time
    requires Configured(ops[..j]) && WaitedOut(Run(ops[..j]).0, ops[j], later, retry.time)
    ensures Configured(ops) && Step(Run(ops).0, retry).1
  {
    WaitOutlastsWindow(Run(ops[..j]).0, ops[j], later, retry.time);
    QuietSince(ops, j, retry.key, retry.endpoint, WindowStart(retry.time, retry.windowMs));
    QuietStreamAdmitted(ops, retry, m);
  }

  lemma QuietSince(ops: seq<Op>, j: nat, key: string, endpoint: string, start: int)
    requires j < |ops| && ops[j].time < start
    requires forall a, b :: 0 <= a < b < |ops| ==> ops[a].time <= ops[b].time
    requires forall i :: j < i < |ops| ==> !InStream(ops[i], key, endpoint)
    ensures forall i :: 0 <= i < |ops| && InStream(ops[i], key, endpoint) ==> ops[i].time < start
  {
  }

  /** A cleanup keeps the running window of every stream exactly when its age reaches back to the window's start. */
  lemma CleanupIsHarmless(now: int, olderThanMs: int, w: int)
    requires w > 0
    ensures (forall t: Table, slot: Slot ::
               slot in t && slot.start == WindowStart(now, w) ==> slot in Sweep(t, now, olderThanMs))
      <==> olderThanMs >= now % w
    ensures olderThanMs >= w ==> olderThanMs >= now % w
  {
    WindowBounds(now, w);
    var slot := Slot("", "", WindowStart(now, w));
    var t: Table := map[slot := 1];
    assert slot in Sweep(t, now, olderThanMs) <==> olderThanMs >= now % w;
  }

  /** With a shorter age the limit does not hold: one request is allowed per window, two are admitted. */
  lemma EagerCleanupBreaksLimit()
    ensures var request := Request("k", "e", 100, 1, 50, Healthy);
      var ops := [request, Cleanup(50, 0), request];
      Configured(ops) && Count(Run(ops).1, "k", "e", 0, 100, true) == 2
  {
    var request, sweep := Request("k", "e", 100, 1, 50, Healthy), Cleanup(50, 0);
    assert WindowStart(50, 100) == 0;
    var ops := [request, sweep, request];
    assert ops == [request] + [sweep] + [request] && [] + [request] == [request];
    EmptySlotAdmits(map[], request);
    RunSnoc([], request);
    RunSnoc([request], sweep);
    SweptSlot(Run([request]).0, Slot("k", "e", 0), 50);
    EmptySlotAdmits(Run([request] + [sweep]).0, request);
    RunSnoc([request] + [sweep], request);
  }

  lemma SweptSlot(t: Table, slot: Slot, now: int)
    requires slot.start < now
    ensures slot !in Step(t, Cleanup(now, 0)).0
  {
  }

  lemma RunSnoc(ops: seq<Op>, op: Op)
    requires Configured(ops + [op])
    ensures Configured(ops)
    ensures var (t, log) := Run(ops);
      && Run(ops + [op]) == (Step(t, op).0, log + [Entry(op, Step(t, op).1)])
      && forall key, endpoint, lo, hi, only :: Count(Run(ops + [op]).1, key, endpoint, lo, hi, only)
           == Count(log, key, endpoint, lo, hi, only) + Count([Entry(op, Step(t, op).1)], key, endpoint, lo, hi, only)
  {
    assert (ops + [op])[..|ops|] == ops && forall i :: 0 <= i < |ops| ==> ops[i] == (ops + [op])[i];
    var log' := Run(ops + [op]).1;
    assert log'[..|ops|] == Run(ops).1;
  }

  // ----- Streams without an API key -----

  /** The step as the foreign key lets it happen. */
  function Guarded(apiKeys: set<string>, op: Op): Op {
    if op.Request? then op.(fault := Constrained(apiKeys, op.key, op.fault)) else op
  }

  function GuardedAll(apiKeys: set<string>, ops: seq<Op>): (guarded: seq<Op>)
    ensures |guarded| == |ops|
    ensures Configured(ops) ==> Configured(guarded)
  {
    seq(|ops|, i requires 0 <= i < |ops| => Guarded(apiKeys, ops[i]))
  }

  ghost predicate Admits(log: seq<Entry>, key: string) {
    exists i :: 0 <= i < |log| && log[i].op.Request? && log[i].op.key == key && log[i].admitted
  }

  lemma AdmitsNext(log: seq<Entry>, e: Entry, key: string)
    requires !Admits(log, key) && !(e.op.Request? && e.op.key == key && e.admitted)
    ensures !Admits(log + [e], key)
  {
  }

  lemma StrangerRefused(apiKeys: set<string>, t: Table, op: Op, key: string)
    requires key !in apiKeys && (op.Request? ==> op.windowMs > 0) && forall s :: s in t ==> s.key != key
    ensures var (t', admitted) := Step(t, Guarded(apiKeys, op));
      && (forall s :: s in t' ==> s.key != key)
      && (op.Request? && op.key == key ==> !admitted)
  {
  }

  /**
   * In no run is a stream admitted, or has a record, whose key is not the id of an API key: so the authentication
   * limiter, which uses addresses as keys, refuses every request.
   */
  lemma {:induction false} StrangersNeverAdmitted(apiKeys: set<string>, ops: seq<Op>, key: string)
    requires Configured(ops) && key !in apiKeys
    ensures var (t, log) := Run(GuardedAll(apiKeys, ops));
      && (forall s :: s in t ==> s.key != key)
      && !Admits(log, key)
  {
    if ops != [] {
      var n := |ops| - 1;
      StrangersNeverAdmitted(apiKeys, ops[..n], key);
      assert GuardedAll(apiKeys, ops)[..n] == GuardedAll(apiKeys, ops[..n]);
      var (t, log) := Run(GuardedAll(apiKeys, ops[..n]));
      StrangerRefused(apiKeys, t, ops[n], key);
      var op := Guarded(apiKeys, ops[n]);
      AdmitsNext(log, Entry(op, Step(t, op).1), key);
      assert Run(GuardedAll(apiKeys, ops)).1 == log + [Entry(op, Step(t, op).1)];
    }
  }

  /** A key is ever admitted exactly if it is the id of an API key: then its first healthy request is. */
  lemma AdmittedIffKnown(apiKeys: set<string>, op: Op)
    requires op.Request? && op.windowMs > 0 && op.fault == Healthy
    ensures (exists ops :: Configured(ops) && Admits(Run(GuardedAll(apiKeys, ops)).1, op.key)) <==> op.key in apiKeys
  {
    if op.key in apiKeys {
      var ops := [op];
      assert GuardedAll(apiKeys, ops) == ops && Configured(ops);
      EmptySlotAdmits(map[], op);
      assert ops[..0] == [] && Run(ops).1 == [Entry(op, true)];
      assert Run(ops).1[0].admitted && Admits(Run(GuardedAll(apiKeys, ops)).1, op.key);
    } else {
      forall ops | Configured(ops)
        ensures !Admits(Run(GuardedAll(apiKeys, ops)).1, op.key)
      {
        StrangersNeverAdmitted(apiKeys, ops, op.key);
      }
    }
  }

  // ----- What a check answers -----

  /**
   * A check is allowed exactly if its window has no record, or one below the limit, and none of the calls it then makes
   * fails. It tells how many requests are left after this one and when the window ends; a check that could not read or
   * write tells a time one window ahead.
   */
  lemma CheckDecides(t: Table, key: string, endpoint: string, w: int, m: int, now: int, fault: Fault)
    requires w > 0
    ensures var (t', v) := Check(t, key, endpoint, w, m, now, fault);
      var slot := Slot(key, endpoint, WindowStart(now, w));
      && (v.allowed <==>
            if slot in t then t[slot] < m && fault !in {FindFails, UpdateFails}
            else fault !in {FindFails, PurgeFails, CreateFails})
      && v.limit == m
      && (v.allowed ==> slot in t' && v.remaining == m - t'[slot] && v.resetTime == slot.start + w)
      && (!v.allowed ==> v.remaining == 0)
      && (!v.allowed ==>
            v.resetTime == if slot in t && t[slot] >= m && fault != FindFails then slot.start + w else now + w)
  {
  }

  /** A check writes its own record and deletes only records of its stream, all older ones when it starts a window. */
  lemma CheckTouches(t: Table, key: string, endpoint: string, w: int, m: int, now: int, fault: Fault, s: Slot)
    requires w > 0
    ensures var (t', v) := Check(t, key, endpoint, w, m, now, fault);
      var slot := Slot(key, endpoint, WindowStart(now, w));
      var older := s.key == key && s.endpoint == endpoint && s.start < slot.start;
      && (s != slot && !older ==> (s in t' <==> s in t) && (s in t ==> t'[s] == t[s]))
      && (older && s in t' ==> s in t && t'[s] == t[s])
      && (older && slot !in t && v.allowed ==> s !in t')
      && (slot in t && s != slot ==> (s in t' <==> s in t))
  {
  }

  /** Different addresses are different streams of the authentication limiter. */
  lemma AddressesApart(a: string, b: string)
    ensures AuthKey(a) == AuthKey(b) ==> a == b
  {
    assert AuthKey(a)[16..] == a && AuthKey(b)[16..] == b;
  }

  /** The advertised wait at the limit ends less than a second after the window; after a failure it is one window. */
  lemma WaitIsTight(atLimit: bool, v: Verdict, w: int, later: int)
    requires !v.allowed
    ensures var wait := RetryAfter(atLimit, v, w, later);
      && wait.Some?
      && (if atLimit then v.resetTime <= later + 1000 * wait.value < v.resetTime + 1000
          else w <= 1000 * wait.value < w + 1000)
    ensures RetryAfter(atLimit, v.(allowed := true), w, later) == None
  {
    CeilDivBounds(v.resetTime - later, 1000);
    CeilDivBounds(w, 1000);
  }
}
