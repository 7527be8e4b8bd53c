/**
 * The balance index: rows updated by events and syncs that may arrive out of order, more than once or not
 * at all, and a short-lived cache in front of them.
 */
module Balances {
  import opened Prelude
  import opened Cache
  import opened Text

  const BALANCE_TTL_MS := 60_000

  datatype SyncStatus = Synced | Stale | SyncFailed

  datatype Asset = Asset(kind: string, code: Option<string>, issuer: Option<string>)

  datatype Row = Row(balance: string, lastSyncedLedger: Option<nat>, lastSyncedAt: Option<int>, syncStatus: SyncStatus)

  /** The balance of one wallet in one asset; a null code or issuer is a value of its own. */
  datatype Id = Id(wallet: string, asset: Asset)

  type Rows = map<Id, Row>

  datatype Update = Update(asset: Asset, balance: string, ledger: nat, timestamp: int)

  datatype Event = Event(id: Id, balance: string, ledger: nat, transactionHash: string, timestamp: int)

  datatype State = State(rows: Rows, processed: set<string>, cache: Entries<Row>)

  const NATIVE := Asset("NATIVE", None, None)

  // ----- Keys -----

  function OrEmpty(s: Option<string>): string {
    if s.Some? then s.value else ""
  }

  /** The components of a balance's cache key; null reads as empty. */
  function Parts(id: Id): (parts: seq<string>)
    ensures |parts| == 5
  {
    ["balance", id.wallet, id.asset.kind, OrEmpty(id.asset.code), OrEmpty(id.asset.issuer)]
  }

  function CacheKey(id: Id): string {
    JoinColon(Parts(id))
  }

  function EventParts(e: Event): (parts: seq<string>)
    ensures |parts| == 6
  {
    [e.id.wallet, e.id.asset.kind, OrEmpty(e.id.asset.code), OrEmpty(e.id.asset.issuer),
     Decimal(e.ledger), e.transactionHash]
  }

  function EventKey(e: Event): string {
    JoinColon(EventParts(e))
  }

  /** No component contains a colon, and an absent code or issuer is null rather than empty. */
  predicate WellFormed(id: Id) {
    && ':' !in id.wallet && ':' !in id.asset.kind
    && ':' !in OrEmpty(id.asset.code) && ':' !in OrEmpty(id.asset.issuer)
    && id.asset.code != Some("") && id.asset.issuer != Some("")
  }

  lemma CacheKeyInjective(a: Id, b: Id)
    requires WellFormed(a) && WellFormed(b) && CacheKey(a) == CacheKey(b)
    ensures a == b
  {
    SameCacheKey(a, b);
  }

  /** The same balance, if a null and an empty code or issuer are not told apart. */
  predicate SameBalance(a: Id, b: Id) {
    && a.wallet == b.wallet && a.asset.kind == b.asset.kind
    && OrEmpty(a.asset.code) == OrEmpty(b.asset.code) && OrEmpty(a.asset.issuer) == OrEmpty(b.asset.issuer)
  }

  /** With no colon before the issuer, two balances share a key exactly when they differ only in null against empty. */
  lemma SameCacheKey(a: Id, b: Id)
    requires ':' !in a.wallet && ':' !in a.asset.kind && ':' !in OrEmpty(a.asset.code)
    requires ':' !in b.wallet && ':' !in b.asset.kind && ':' !in OrEmpty(b.asset.code)
    ensures CacheKey(a) == CacheKey(b) <==> SameBalance(a, b)
  {
    var x, y := Parts(a), Parts(b);
    if CacheKey(a) == CacheKey(b) {
      JoinInjective(x, y);
      assert x[1] == y[1] && x[2] == y[2] && x[3] == y[3] && x[4] == y[4];
    } else {
      assert SameBalance(a, b) ==> x == y;
    }
  }

  /** Whatever the components, a balance shares its key with a different one exactly when one of them holds a colon. */
  lemma KeyIsShared(a: Id)
    ensures (exists b :: !SameBalance(a, b) && CacheKey(a) == CacheKey(b)) <==>
      ':' in a.wallet || ':' in a.asset.kind || ':' in OrEmpty(a.asset.code) || ':' in OrEmpty(a.asset.issuer)
  {
    var x := Parts(a);
    if ':' in x[1] || ':' in x[2] || ':' in x[3] || ':' in x[4] {
      var b := Resplit(a);
      assert !SameBalance(a, b) && CacheKey(a) == CacheKey(b);
    } else {
      forall b | CacheKey(a) == CacheKey(b)
        ensures SameBalance(a, b)
      {
        JoinUnique(x, Parts(b));
        assert x[1] == Parts(b)[1] && x[2] == Parts(b)[2] && x[3] == Parts(b)[3] && x[4] == Parts(b)[4];
      }
    }
  }

  lemma KeyText(id: Id)
    ensures CacheKey(id)
      == "balance" + ":"
         + (id.wallet + ":" + (id.asset.kind + ":" + (OrEmpty(id.asset.code) + ":" + OrEmpty(id.asset.issuer))))
  {
    var p := Parts(id);
    assert p[3..][1..] == [p[4]] && JoinColon(p[3..]) == p[3] + ":" + p[4];
    assert p[2..][1..] == p[3..] && JoinColon(p[2..]) == p[2] + ":" + JoinColon(p[3..]);
    assert p[1..][1..] == p[2..] && JoinColon(p[1..]) == p[1] + ":" + JoinColon(p[2..]);
  }

  lemma Regroup(x: string, y: string, rest: string)
    ensures x + ":" + y + ":" + rest == x + ":" + (y + ":" + rest)
  {
  }

  /** Another balance with the same key: the first inner colon becomes a separator and a separator becomes text. */
  lemma Resplit(a: Id) returns (b: Id)
    requires ':' in a.wallet || ':' in a.asset.kind || ':' in OrEmpty(a.asset.code) || ':' in OrEmpty(a.asset.issuer)
    ensures !SameBalance(a, b) && CacheKey(a) == CacheKey(b)
  {
    var w, k, c, i := a.wallet, a.asset.kind, OrEmpty(a.asset.code), OrEmpty(a.asset.issuer);
    if ':' in w {
      var x, y := SplitAtColon(w);
      b := Id(x, Asset(y, Some(k), Some(c + ":" + i)));
      Regroup(x, y, k + ":" + (c + ":" + i));
    } else if ':' in k {
      var x, y := SplitAtColon(k);
      b := Id(w, Asset(x, Some(y), Some(c + ":" + i)));
      Regroup(x, y, c + ":" + i);
    } else if ':' in c {
      var x, y := SplitAtColon(c);
      b := Id(w, Asset(k, Some(x), Some(y + ":" + i)));
      Regroup(x, y, i);
    } else {
      var x, y := SplitAtColon(i);
      b := Id(w, Asset(k, Some(c + ":" + x), Some(y)));
      Regroup(c, x, y);
    }
    KeyText(a);
    KeyText(b);
  }

  lemma SplitAtColon(s: string) returns (x: string, y: string)
    requires ':' in s
    ensures s == x + ":" + y && |x| < |s|
  {
    var n :| 0 <= n < |s| && s[n] == ':';
    x, y := s[..n], s[n + 1..];
  }

  lemma EventKeyInjective(e: Event, f: Event)
    requires WellFormed(e.id) && WellFormed(f.id) && EventKey(e) == EventKey(f)
    ensures e.id == f.id && e.ledger == f.ledger && e.transactionHash == f.transactionHash
  {
    var x, y := EventParts(e), EventParts(f);
    JoinInjective(x, y);
    assert x[0] == y[0] && x[1] == y[1] && x[2] == y[2] && x[3] == y[3] && x[4] == y[4] && x[5] == y[5];
    DecimalInjective(e.ledger, f.ledger);
  }

  /** Both ways to share a key: null against empty code, and a colon inside a component. */
  lemma CacheKeysCollide()
    ensures var a, b := Id("w", Asset("NATIVE", None, None)), Id("w", Asset("NATIVE", Some(""), None));
      a != b && CacheKey(a) == CacheKey(b)
    ensures var a, b := Id("w", Asset("k", Some("c:d"), Some("i"))), Id("w", Asset("k", Some("c"), Some("d:i")));
      !SameBalance(a, b) && CacheKey(a) == CacheKey(b)
  {
    var a, b := Id("w", Asset("k", Some("c:d"), Some("i"))), Id("w", Asset("k", Some("c"), Some("d:i")));
    KeyText(a);
    KeyText(b);
  }

  // ----- Updating rows -----

  /** The update is older than what the row already reflects. */
  predicate Outdated(rows: Rows, id: Id, ledger: nat) {
    id in rows && rows[id].lastSyncedLedger.Some? && ledger < rows[id].lastSyncedLedger.value
  }

  function Upsert(rows: Rows, wallet: string, u: Update): Rows {
    rows[Id(wallet, u.asset) := Row(u.balance, Some(u.ledger), Some(u.timestamp), Synced)]
  }

  function ApplyUpdate(rows: Rows, wallet: string, u: Update, force: bool): Rows {
    if !force && Outdated(rows, Id(wallet, u.asset), u.ledger) then rows else Upsert(rows, wallet, u)
  }

  function ApplyAll(rows: Rows, wallet: string, updates: seq<Update>, force: bool): Rows {
    if updates == [] then rows
    else ApplyUpdate(ApplyAll(rows, wallet, updates[..|updates| - 1], force), wallet, updates[|updates| - 1], force)
  }

  function IndexEvent(s: State, e: Event): State {
    if EventKey(e) in s.processed || Outdated(s.rows, e.id, e.ledger) then s
    else
      s.(rows := Upsert(s.rows, e.id.wallet, Update(e.id.asset, e.balance, e.ledger, e.timestamp)),
         processed := s.processed + {EventKey(e)})
  }

  /** The account does not exist on chain: the ledger column is left as it is. */
  function ZeroNative(rows: Rows, wallet: string, now: int): Rows {
    var id := Id(wallet, NATIVE);
    var ledger := if id in rows then rows[id].lastSyncedLedger else None;
    rows[id := Row("0", ledger, Some(now), Synced)]
  }

  function MarkFailed(rows: Rows, wallet: string): Rows {
    map id | id in rows :: if id.wallet == wallet then rows[id].(syncStatus := SyncFailed) else rows[id]
  }

  /** How a sync goes: to its end, to a failure after the first `applied` updates, or the account is not on chain. */
  datatype SyncEnd = Finishes | Breaks(applied: nat) | AccountMissing(now: int)

  /** How many of the updates are applied. */
  function AppliedCount(rows: Rows, wallet: string, updates: seq<Update>, force: bool): (n: nat)
    ensures n <= |updates|
  {
    if updates == [] then 0
    else
      var front, u := updates[..|updates| - 1], updates[|updates| - 1];
      AppliedCount(rows, wallet, front, force)
      + if force || !Outdated(ApplyAll(rows, wallet, front, force), Id(wallet, u.asset), u.ledger) then 1 else 0
  }

  /** Only a sync that reaches its end clears the cache. */
  function Sync(s: State, wallet: string, updates: seq<Update>, force: bool, end: SyncEnd): State {
    match end
    case Finishes => s.(rows := ApplyAll(s.rows, wallet, updates, force), cache := map[])
    case Breaks(n) =>
      s.(rows := MarkFailed(ApplyAll(s.rows, wallet, updates[..Min(n, |updates|)], force), wallet))
    case AccountMissing(now) => s.(rows := ZeroNative(s.rows, wallet, now))
  }

  // ----- Reading -----

  predicate IsStale(row: Row, thresholdMs: int, now: int) {
    row.lastSyncedAt == None || now - row.lastSyncedAt.value > thresholdMs
  }

  function Lookup(rows: Rows, id: Id): Option<Row> {
    if id in rows then Some(rows[id]) else None
  }

  function GetBalance(s: State, id: Id, thresholdMs: int, now: int): (State, Option<Row>) {
    var (cache, hit) := Get(s.cache, CacheKey(id), now);
    var s' := s.(cache := cache);
    if hit.Some? then (s', hit)
    else if id !in s.rows then (s', None)
    else if IsStale(s.rows[id], thresholdMs, now) then (s', Some(s.rows[id]))
    else (s'.(cache := Put(cache, CacheKey(id), s.rows[id], now, BALANCE_TTL_MS)), Some(s.rows[id]))
  }

  class BalanceIndexer {
    var rows: Rows
    var processed: set<string>
    const cache: CacheService<Row>
    const staleThresholdMs: int

    function Model(): State
      reads this, cache
    {
      State(rows, processed, cache.entries)
    }

    constructor (cache: CacheService<Row>, staleThresholdMs: int)
      ensures rows == map[] && processed == {} && this.cache == cache && this.staleThresholdMs == staleThresholdMs
    {
      rows, processed, this.cache, this.staleThresholdMs := map[], {}, cache, staleThresholdMs;
    }

    method IndexBalanceEvent(e: Event)
      modifies this
      ensures Model() == IndexEvent(old(Model()), e)
    {
      var key := EventKey(e);
      if key in processed {
        return;
      }
      if e.id in rows && rows[e.id].lastSyncedLedger.Some? && e.ledger < rows[e.id].lastSyncedLedger.value {
        return;
      }
      var _, _ := ApplyBalanceUpdate(e.id.wallet, Update(e.id.asset, e.balance, e.ledger, e.timestamp), true);
      processed := processed + {key};
    }

    method ApplyBalanceUpdate(wallet: string, u: Update, force: bool) returns (updated: bool, mismatch: bool)
      modifies this`rows
      ensures rows == ApplyUpdate(old(rows), wallet, u, force)
      ensures updated <==> force || !Outdated(old(rows), Id(wallet, u.asset), u.ledger)
      ensures mismatch <==>
        updated && Id(wallet, u.asset) in old(rows) && old(rows)[Id(wallet, u.asset)].balance != u.balance
    {
      var id := Id(wallet, u.asset);
      if !force && id in rows && rows[id].lastSyncedLedger.Some? && u.ledger < rows[id].lastSyncedLedger.value {
        return false, false;
      }
      updated := true;
      mismatch := id in rows && rows[id].balance != u.balance;
      rows := rows[id := Row(u.balance, Some(u.ledger), Some(u.timestamp), Synced)];
    }

    method SyncWalletBalances(wallet: string, updates: seq<Update>, force: bool, end: SyncEnd)
      returns (updatedCount: nat)
      modifies this`rows, cache
      ensures Model() == Sync(old(Model()), wallet, updates, force, end)
      ensures end == Finishes ==> updatedCount == AppliedCount(old(rows), wallet, updates, force)
      ensures end.AccountMissing? ==> updatedCount == 1
    {
      if end.AccountMissing? {
        rows := ZeroNative(rows, wallet, end.now);
        return 1;
      }
      updatedCount := 0;
      var stop := if end.Finishes? then |updates| else Min(end.applied, |updates|);
      for i := 0 to stop
        invariant rows == ApplyAll(old(rows), wallet, updates[..i], force)
        invariant unchanged(cache) && updatedCount == AppliedCount(old(rows), wallet, updates[..i], force)
      {
        assert updates[..i + 1][..i] == updates[..i];
        var updated, _ := ApplyBalanceUpdate(wallet, updates[i], force);
        if updated {
          updatedCount := updatedCount + 1;
        }
      }
      assert updates[..|updates|] == updates;
      if end.Breaks? {
        rows := MarkFailed(rows, wallet);
        return;
      }
      cache.Clear();
    }

    method ReadBalance(id: Id, now: int) returns (r: Option<Row>)
      modifies cache
      ensures (Model(), r) == GetBalance(old(Model()), id, staleThresholdMs, now)
    {
      var cached := cache.Lookup(CacheKey(id), now);
      if cached.Some? {
        return cached;
      }
      if id !in rows {
        return None;
      }
      if !IsStale(rows[id], staleThresholdMs, now) {
        cache.Set(CacheKey(id), rows[id], now, BALANCE_TTL_MS);
      }
      return Some(rows[id]);
    }
  }

  // ----- Runs -----

  datatype Op =
    | Index(event: Event)
    | DoSync(wallet: string, updates: seq<Update>, force: bool, end: SyncEnd)
    | Reconcile(wallet: string, update: Update)
    | Read(id: Id, now: int)
      /** Another user of the shared cache clears it. */
    | ClearCache
      /** The process restarts: everything held in memory is lost. */
    | Restart

  function Step(s: State, op: Op, thresholdMs: int): State {
    match op
    case Index(e) => IndexEvent(s, e)
    case DoSync(wallet, updates, force, end) => Sync(s, wallet, updates, force, end)
    case Reconcile(wallet, u) => s.(rows := ApplyUpdate(s.rows, wallet, u, true))
    case Read(id, now) => GetBalance(s, id, thresholdMs, now).0
    case ClearCache => s.(cache := map[])
    case Restart => State(s.rows, {}, map[])
  }

  function Run(s: State, ops: seq<Op>, thresholdMs: int): State {
    if ops == [] then s else Step(Run(s, ops[..|ops| - 1], thresholdMs), ops[|ops| - 1], thresholdMs)
  }

  const Empty := State(map[], {}, map[])

  // ----- Ledgers only go up -----

  /** Not forced, and not a reconciliation, which forces. */
  predicate Unforced(op: Op) {
    !op.Reconcile? && (op.DoSync? ==> !op.force)
  }

  predicate LedgerAtMost(a: Option<nat>, b: Option<nat>) {
    a.Some? ==> b.Some? && a.value <= b.value
  }

  ghost predicate LedgersGrow(rows: Rows, rows': Rows) {
    forall id :: id in rows ==> id in rows' && LedgerAtMost(rows[id].lastSyncedLedger, rows'[id].lastSyncedLedger)
  }

  lemma {:induction false} SyncGrows(rows: Rows, wallet: string, updates: seq<Update>)
    ensures LedgersGrow(rows, ApplyAll(rows, wallet, updates, false))
  {
    if updates != [] {
      SyncGrows(rows, wallet, updates[..|updates| - 1]);
    }
  }

  lemma StepGrows(s: State, op: Op, thresholdMs: int)
    requires Unforced(op)
    ensures LedgersGrow(s.rows, Step(s, op, thresholdMs).rows)
  {
    if op.DoSync? {
      SyncGrows(s.rows, op.wallet, op.updates);
      SyncGrows(s.rows, op.wallet, op.updates[..Min(if op.end.Breaks? then op.end.applied else 0, |op.updates|)]);
    }
  }

  /** In every run of events, unforced syncs, zeroings, reads and restarts no row's ledger ever decreases. */
  lemma {:induction false} LedgerNeverDecreases(s: State, ops: seq<Op>, thresholdMs: int)
    requires forall i :: 0 <= i < |ops| ==> Unforced(ops[i])
    ensures LedgersGrow(s.rows, Run(s, ops, thresholdMs).rows)
  {
    if ops != [] {
      var n := |ops| - 1;
      LedgerNeverDecreases(s, ops[..n], thresholdMs);
      StepGrows(Run(s, ops[..n], thresholdMs), ops[n], thresholdMs);
    }
  }

  /** A forced update lowers the ledger exactly when it is older than the row. */
  lemma ForcedUpdateCanLower(rows: Rows, wallet: string, u: Update)
    ensures !LedgersGrow(rows, ApplyUpdate(rows, wallet, u, true)) <==> Outdated(rows, Id(wallet, u.asset), u.ledger)
  {
    var id := Id(wallet, u.asset);
    assert id in rows ==> ApplyUpdate(rows, wallet, u, true)[id].lastSyncedLedger == Some(u.ledger);
  }

  // ----- Events converge -----

  ghost predicate Seen(ops: seq<Op>, id: Id, e: Event) {
    Index(e) in ops && e.id == id
  }

  /** An event of a balance that no other event of it outranks. */
  ghost predicate Peak(ops: seq<Op>, id: Id, e: Event) {
    Seen(ops, id, e) && forall f :: Index(f) in ops && f.id == id ==> f.ledger <= e.ledger
  }

  ghost predicate Matches(rows: Rows, id: Id, e: Event) {
    id in rows && rows[id].balance == e.balance && rows[id].lastSyncedLedger == Some(e.ledger)
  }

  /** Only events write this balance; any events, reads, restarts, and syncs of other wallets may be mixed in. */
  predicate LeavesToEvents(op: Op, id: Id) {
    match op
    case DoSync(wallet, _, _, _) => wallet != id.wallet
    case Reconcile(wallet, _) => wallet != id.wallet
    case _ => true
  }

  ghost predicate EventsWellFormed(ops: seq<Op>) {
    forall e :: Index(e) in ops ==> WellFormed(e.id)
  }

  lemma {:induction false} OtherWallet(rows: Rows, wallet: string, updates: seq<Update>, force: bool, id: Id)
    requires id.wallet != wallet
    ensures Lookup(ApplyAll(rows, wallet, updates, force), id) == Lookup(rows, id)
  {
    if updates != [] {
      OtherWallet(rows, wallet, updates[..|updates| - 1], force, id);
    }
  }

  ghost predicate EventInv(s: State, ops: seq<Op>, id: Id) {
    && (forall k :: k in s.processed ==> exists e :: Index(e) in ops && EventKey(e) == k)
    && (if id in s.rows then exists e :: Peak(ops, id, e) && Matches(s.rows, id, e)
        else forall e :: !Seen(ops, id, e))
  }

  /** An event of the balance itself. */
  lemma IndexOwn(s: State, front: seq<Op>, e: Event)
    requires EventInv(s, front, e.id) && EventsWellFormed(front + [Index(e)])
    ensures EventInv(IndexEvent(s, e), front + [Index(e)], e.id)
  {
    var ops, id := front + [Index(e)], e.id;
    var s' := IndexEvent(s, e);
    assert Index(e) in ops && forall f :: Index(f) in ops <==> Index(f) in front || f == e;
    assert forall f :: Index(f) in front && f.id == id ==> Seen(front, id, f);
    if EventKey(e) in s.processed {
      var f :| Index(f) in front && EventKey(f) == EventKey(e);
      EventKeyInjective(e, f);
      assert f.id == id && f.ledger == e.ledger && Seen(front, id, f);
    }
    if s' == s {
      var p :| Peak(front, id, p) && Matches(s.rows, id, p);
      assert Peak(ops, id, p);
    } else {
      if id in s.rows {
        var p :| Peak(front, id, p) && Matches(s.rows, id, p);
        assert p.ledger <= e.ledger;
      }
      assert Peak(ops, id, e) && Matches(s'.rows, id, e);
    }
  }

  /** An event of another balance. */
  lemma IndexOther(s: State, front: seq<Op>, e: Event, id: Id)
    requires EventInv(s, front, id) && e.id != id
    ensures EventInv(IndexEvent(s, e), front + [Index(e)], id)
  {
    var ops := front + [Index(e)];
    var s' := IndexEvent(s, e);
    assert Index(e) in ops && forall f :: Index(f) in ops <==> Index(f) in front || f == e;
    assert forall f :: Seen(ops, id, f) <==> Seen(front, id, f);
    if id in s.rows {
      var p :| Peak(front, id, p) && Matches(s.rows, id, p);
      assert Peak(ops, id, p) && Matches(s'.rows, id, p);
    }
  }

  lemma OtherKeeps(s: State, front: seq<Op>, op: Op, id: Id, thresholdMs: int)
    requires EventInv(s, front, id) && !op.Index? && LeavesToEvents(op, id)
    ensures EventInv(Step(s, op, thresholdMs), front + [op], id)
  {
    var ops := front + [op];
    var s' := Step(s, op, thresholdMs);
    assert forall f :: Index(f) in ops <==> Index(f) in front;
    if op.DoSync? {
      OtherWallet(s.rows, op.wallet, op.updates, op.force, id);
      var applied := Min(if op.end.Breaks? then op.end.applied else 0, |op.updates|);
      OtherWallet(s.rows, op.wallet, op.updates[..applied], op.force, id);
    }
    assert Lookup(s'.rows, id) == Lookup(s.rows, id);
    if id in s.rows {
      var p :| Peak(front, id, p) && Matches(s.rows, id, p);
      assert Peak(ops, id, p) && Matches(s'.rows, id, p);
    } else {
      assert forall e :: Seen(ops, id, e) ==> Seen(front, id, e);
    }
  }

  lemma {:induction false} EventInvHolds(ops: seq<Op>, id: Id, thresholdMs: int)
    requires EventsWellFormed(ops) && forall i :: 0 <= i < |ops| ==> LeavesToEvents(ops[i], id)
    ensures EventInv(Run(Empty, ops, thresholdMs), ops, id)
  {
    if ops != [] {
      var n := |ops| - 1;
      var front := ops[..n];
      assert ops == front + [ops[n]];
      assert forall op :: op in front ==> op in ops;
      EventInvHolds(front, id, thresholdMs);
      var s := Run(Empty, front, thresholdMs);
      if ops[n].Index? {
        if ops[n].event.id == id {
          IndexOwn(s, front, ops[n].event);
        } else {
          IndexOther(s, front, ops[n].event, id);
        }
      } else {
        OtherKeeps(s, front, ops[n], id, thresholdMs);
      }
    }
  }

  /**
   * In whatever order and however often the events arrive, the row ends at an event with the highest ledger; so if the
   * events of that ledger agree on the balance, it ends with their balance.
   */
  lemma EventsConverge(ops: seq<Op>, id: Id, top: Event, thresholdMs: int)
    requires EventsWellFormed(ops) && forall i :: 0 <= i < |ops| ==> LeavesToEvents(ops[i], id)
    requires Peak(ops, id, top)
    ensures exists p :: Peak(ops, id, p) && Matches(Run(Empty, ops, thresholdMs).rows, id, p)
    ensures (forall p :: Peak(ops, id, p) ==> p.balance == top.balance) ==>
      Matches(Run(Empty, ops, thresholdMs).rows, id, top)
  {
    EventInvHolds(ops, id, thresholdMs);
    var s := Run(Empty, ops, thresholdMs);
    assert Seen(ops, id, top);
    var p :| Peak(ops, id, p) && Matches(s.rows, id, p);
    assert p.ledger == top.ledger;
  }

  /** Two events of one balance and ledger, in one order and in the other. */
  lemma TwoEvents(e: Event, f: Event, thresholdMs: int)
    requires e.id == f.id && e.ledger == f.ledger
    ensures var s := Run(Empty, [Index(e), Index(f)], thresholdMs);
      Matches(s.rows, e.id, if EventKey(e) == EventKey(f) then e else f)
  {
    var ops := [Index(e), Index(f)];
    assert ops[..1] == [Index(e)] && ops[..1][..0] == [];
    assert Run(Empty, ops[..1], thresholdMs) == IndexEvent(Empty, e);
  }

  /** The agreement is needed: any two events of one ledger that disagree end differently in the two orders. */
  lemma OrderMatters(e: Event, f: Event, thresholdMs: int)
    requires e.id == f.id && e.ledger == f.ledger && e.balance != f.balance
    ensures var s, s' := Run(Empty, [Index(e), Index(f)], thresholdMs), Run(Empty, [Index(f), Index(e)], thresholdMs);
      && e.id in s.rows && e.id in s'.rows
      && s.rows[e.id].balance != s'.rows[e.id].balance
  {
    TwoEvents(e, f, thresholdMs);
    TwoEvents(f, e, thresholdMs);
  }

  /** Two such events. */
  lemma OrderCanMatter()
    ensures var id := Id("w", NATIVE);
      var e, f := Event(id, "1", 7, "h", 0), Event(id, "2", 7, "g", 0);
      var s, s' := Run(Empty, [Index(e), Index(f)], 0), Run(Empty, [Index(f), Index(e)], 0);
      && WellFormed(id) && id in s.rows && id in s'.rows
      && s.rows[id].balance != s'.rows[id].balance
  {
    var id := Id("w", NATIVE);
    var e, f := Event(id, "1", 7, "h", 0), Event(id, "2", 7, "g", 0);
    assert e.balance[0] != f.balance[0];
    OrderMatters(e, f, 0);
  }

  // ----- Cached reads are recent -----

  /** The entry was put by the j-th step, a read, from a row that was fresh at that moment. */
  ghost predicate PutBy(ops: seq<Op>, key: string, entry: Entry<Row>, thresholdMs: int, j: nat) {
    && j < |ops| && ops[j].Read? && key == CacheKey(ops[j].id)
    && entry.expiresAt == ops[j].now + BALANCE_TTL_MS
    && Lookup(Run(Empty, ops[..j], thresholdMs).rows, ops[j].id) == Some(entry.value)
    && !IsStale(entry.value, thresholdMs, ops[j].now)
  }

  lemma PutByExtends(ops: seq<Op>, op: Op, key: string, entry: Entry<Row>, thresholdMs: int, j: nat)
    requires PutBy(ops, key, entry, thresholdMs, j)
    ensures PutBy(ops + [op], key, entry, thresholdMs, j)
  {
    assert (ops + [op])[..j] == ops[..j];
  }

  lemma {:induction false} CacheInv(ops: seq<Op>, thresholdMs: int, key: string) returns (j: nat)
    requires key in Run(Empty, ops, thresholdMs).cache
    ensures PutBy(ops, key, Run(Empty, ops, thresholdMs).cache[key], thresholdMs, j)
  {
    var n := |ops| - 1;
    var front := ops[..n];
    var s, s' := Run(Empty, front, thresholdMs), Run(Empty, ops, thresholdMs);
    assert ops == front + [ops[n]];
    if key in s.cache && s'.cache[key] == s.cache[key] {
      j := CacheInv(front, thresholdMs, key);
      PutByExtends(front, ops[n], key, s.cache[key], thresholdMs, j);
    } else {
      j := n;
    }
  }

  /**
   * Every result of a read is what the table held for that balance at this moment or at an earlier read at most
   * 60000 ms ago, and one served from the cache was synced at most the stale threshold plus 60000 ms ago.
   */
  lemma ReadsAreRecent(ops: seq<Op>, id: Id, now: int, thresholdMs: int)
    requires WellFormed(id) && forall i :: 0 <= i < |ops| && ops[i].Read? ==> WellFormed(ops[i].id) && ops[i].now <= now
    ensures var s := Run(Empty, ops, thresholdMs);
      var r := GetBalance(s, id, thresholdMs, now).1;
      var hit := Get(s.cache, CacheKey(id), now).1;
      && (hit == None ==> r == Lookup(s.rows, id))
      && (hit.Some? ==>
            && r == hit
            && r.value.lastSyncedAt.Some? && now - r.value.lastSyncedAt.value <= thresholdMs + BALANCE_TTL_MS
            && exists j :: 0 <= j < |ops| && ops[j].Read? && now - BALANCE_TTL_MS <= ops[j].now <= now
                           && r == Lookup(Run(Empty, ops[..j], thresholdMs).rows, id))
  {
    var s := Run(Empty, ops, thresholdMs);
    if Get(s.cache, CacheKey(id), now).1.Some? {
      var j := CacheInv(ops, thresholdMs, CacheKey(id));
      CacheKeyInjective(id, ops[j].id);
    }
  }

  // ----- What an update, a sync and a read leave behind -----

  /**
   * An update is written exactly if it is forced, the balance is new, or its ledger is not below the row's; then the
   * row is the update's, marked as synced. No other row changes.
   */
  lemma UpdateDecides(rows: Rows, wallet: string, u: Update, force: bool)
    ensures var id := Id(wallet, u.asset);
      var ledger := if id in rows then rows[id].lastSyncedLedger else None;
      ApplyUpdate(rows, wallet, u, force)
        == if force || ledger == None || ledger.value <= u.ledger
           then rows[id := Row(u.balance, Some(u.ledger), Some(u.timestamp), Synced)]
           else rows
  {
  }

  lemma {:induction false} SyncFrame(rows: Rows, wallet: string, updates: seq<Update>, force: bool, id: Id)
    requires forall i :: 0 <= i < |updates| ==> id != Id(wallet, updates[i].asset)
    ensures Lookup(ApplyAll(rows, wallet, updates, force), id) == Lookup(rows, id)
  {
    if updates != [] {
      SyncFrame(rows, wallet, updates[..|updates| - 1], force, id);
    }
  }

  /** A sync of different assets decides for each of them by its own update and the row there was before. */
  lemma {:induction false} SyncDecides(rows: Rows, wallet: string, updates: seq<Update>, force: bool, k: nat)
    requires k < |updates| && forall i, j :: 0 <= i < j < |updates| ==> updates[i].asset != updates[j].asset
    ensures var id := Id(wallet, updates[k].asset);
      Lookup(ApplyAll(rows, wallet, updates, force), id) == Lookup(ApplyUpdate(rows, wallet, updates[k], force), id)
  {
    var n := |updates| - 1;
    var id := Id(wallet, updates[k].asset);
    var m := ApplyAll(rows, wallet, updates[..n], force);
    if k == n {
      SyncFrame(rows, wallet, updates[..n], force, id);
      UpdateDecides(m, wallet, updates[n], force);
    } else {
      SyncDecides(rows, wallet, updates[..n], force, k);
      UpdateDecides(m, wallet, updates[n], force);
    }
  }

  /** After a finished sync every read sees the table, whatever was cached before. */
  lemma SyncIsSeen(s: State, wallet: string, updates: seq<Update>, force: bool, id: Id, thresholdMs: int, now: int)
    ensures var s' := Sync(s, wallet, updates, force, Finishes);
      GetBalance(s', id, thresholdMs, now).1 == Lookup(ApplyAll(s.rows, wallet, updates, force), id)
  {
  }

  /** A broken sync marks every row of the wallet, and no other, as failed and changes nothing else about them. */
  lemma BrokenSyncMarks(s: State, wallet: string, updates: seq<Update>, force: bool, n: nat, id: Id)
    ensures var before := ApplyAll(s.rows, wallet, updates[..Min(n, |updates|)], force);
      var s' := Sync(s, wallet, updates, force, Breaks(n));
      && s'.cache == s.cache && s'.processed == s.processed
      && (id in s'.rows <==> id in before)
      && (id in before ==>
            s'.rows[id] == if id.wallet == wallet then before[id].(syncStatus := SyncFailed) else before[id])
  {
  }

  /** A wallet whose account is not on chain has a native balance of zero, synced now, at the ledger it had. */
  lemma MissingAccountIsZero(s: State, wallet: string, updates: seq<Update>, force: bool, now: int, other: Id)
    ensures var id := Id(wallet, Asset("NATIVE", None, None));
      var s' := Sync(s, wallet, updates, force, AccountMissing(now));
      && s'.cache == s.cache && s'.processed == s.processed
      && id in s'.rows && s'.rows[id].balance == "0" && s'.rows[id].syncStatus == Synced
      && s'.rows[id].lastSyncedAt == Some(now)
      && s'.rows[id].lastSyncedLedger == (if id in s.rows then s.rows[id].lastSyncedLedger else None)
      && (other != id ==> Lookup(s'.rows, other) == Lookup(s.rows, other))
  {
  }

  /** An event is applied exactly if it has not been seen and is not older than the row; then it is remembered. */
  lemma EventDecides(s: State, e: Event)
    ensures var ledger := if e.id in s.rows then s.rows[e.id].lastSyncedLedger else None;
      IndexEvent(s, e) ==
      if EventKey(e) !in s.processed && (ledger == None || ledger.value <= e.ledger)
      then s.(rows := s.rows[e.id := Row(e.balance, Some(e.ledger), Some(e.timestamp), Synced)],
              processed := s.processed + {EventKey(e)})
      else s
  {
  }

  /** A read of a fresh row is cached: until a minute has passed or the cache is cleared, reads repeat it. */
  lemma FreshReadIsCached(s: State, id: Id, thresholdMs: int, now: int, rows: Rows, later: int)
    requires Get(s.cache, CacheKey(id), now).1 == None && id in s.rows
    requires s.rows[id].lastSyncedAt.Some? && now - s.rows[id].lastSyncedAt.value <= thresholdMs
    requires later <= now + 60_000
    ensures var s' := GetBalance(s, id, thresholdMs, now).0;
      GetBalance(s'.(rows := rows), id, thresholdMs, later).1 == Some(s.rows[id])
  {
  }
}
