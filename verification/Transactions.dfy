/**
 * Transactions and their lifecycle: creation, submission to Horizon, polling, status updates checked against
 * a transition relation, and reads through a cache shared by two services.
 */
module Transactions {
  import opened Prelude
  import opened Cache

  const TRANSACTION_CACHE_TTL := 300_000

  datatype Status = Pending | Submitted | Confirmed | Failed

  datatype Tx = Tx(
    status: Status, submittedAt: Option<int>, confirmedAt: Option<int>, failedAt: Option<int>,
    stellarHash: Option<string>, stellarLedger: Option<int>, statusReason: Option<string>,
    idempotencyKey: Option<string>)

  type Table = map<string, Tx>

  datatype State = State(txs: Table, cache: Entries<Tx>)

  datatype Error = NotFound | InvalidTransition | Database | Unavailable | Rejected

  // ----- Mapping Horizon's answers -----

  datatype HorizonResult = HorizonResult(
    hash: Option<string>, ledger: Option<int>, successful: bool, resultCode: Option<string>,
    httpStatus: Option<int>, extrasCode: Option<string>)

  function TxCode(r: HorizonResult): string {
    if r.resultCode.Some? then r.resultCode.value else if r.extrasCode.Some? then r.extrasCode.value else ""
  }

  function MapStatus(r: HorizonResult): Status {
    if r.httpStatus == Some(202) then Submitted
    else if r.successful then Confirmed
    else if TxCode(r) in {"tx_success", "tx_fee_bump_inner_success"} then Confirmed
    else if TxCode(r) == "tx_queued" then Submitted
    else Failed
  }

  // ----- The transition relation -----

  /** What the properties need of a relation; the repository's own is `Allowed`. */
  ghost predicate Lawful(can: (Status, Status) -> bool) {
    (forall to :: !can(Confirmed, to) && !can(Failed, to)) && !can(Pending, Confirmed)
  }

  predicate Allowed(from: Status, to: Status) {
    match from
    case Pending => to in {Submitted, Failed}
    case Submitted => to in {Confirmed, Failed}
    case _ => false
  }

  predicate Terminal(s: Status) {
    s in {Confirmed, Failed}
  }

  // ----- The services as functions of the state -----

  function Key(id: string): string {
    "transaction:" + id
  }

  datatype Patch = Patch(status: Status, reason: Option<string>, hash: Option<string>, ledger: Option<int>)

  function Or<T>(a: Option<T>, b: Option<T>): Option<T> {
    if a.Some? then a else b
  }

  function Patched(tx: Tx, p: Patch, now: int): Tx {
    Tx(p.status,
       if p.status == Submitted then Some(now) else tx.submittedAt,
       if p.status == Confirmed then Some(now) else tx.confirmedAt,
       if p.status == Failed then Some(now) else tx.failedAt,
       Or(p.hash, tx.stellarHash), Or(p.ledger, tx.stellarLedger), Or(p.reason, tx.statusReason), tx.idempotencyKey)
  }

  /** Hashes are unique among the rows that have one. */
  predicate HashTaken(txs: Table, id: string, hash: Option<string>) {
    hash.Some? && exists x :: x in txs && x != id && txs[x].stellarHash == hash
  }

  function Update(can: (Status, Status) -> bool, s: State, id: string, p: Patch, now: int, dbOk: bool)
    : (State, Result<Tx, Error>)
  {
    if id !in s.txs then (s, Err(NotFound))
    else if !can(s.txs[id].status, p.status) then (s, Err(InvalidTransition))
    else if !dbOk || HashTaken(s.txs, id, p.hash) then (s, Err(Database))
    else
      var tx := Patched(s.txs[id], p, now);
      (State(s.txs[id := tx], s.cache - {Key(id)}), Ok(tx))
  }

  predicate KeyUsed(txs: Table, key: Option<string>) {
    key.Some? && exists x :: x in txs && txs[x].idempotencyKey == key
  }

  /** What the checks on memo, wallets and balance come to. */
  datatype Admission = BadMemo | NoWallet | LowBalance | Admitted

  datatype Creation = Created | Replayed | Denied(admission: Admission) | Conflict

  /** The memo is checked before the key, the rest after it. An empty key is not looked up, but its column is unique. */
  function Create(s: State, id: string, key: Option<string>, admission: Admission): (State, Creation) {
    if admission == BadMemo then (s, Denied(BadMemo))
    else if key != Some("") && KeyUsed(s.txs, key) then (s, Replayed)
    else if admission != Admitted then (s, Denied(admission))
    else if id in s.txs || KeyUsed(s.txs, key) then (s, Conflict)
    else (s.(txs := s.txs[id := Tx(Pending, None, None, None, None, None, None, key)]), Created)
  }

  function FindOne(s: State, id: string, now: int): (State, Result<Tx, Error>) {
    var (cache, hit) := Get(s.cache, Key(id), now);
    if hit.Some? then (s.(cache := cache), Ok(hit.value))
    else if id !in s.txs then (s.(cache := cache), Err(NotFound))
    else (s.(cache := Put(cache, Key(id), s.txs[id], now, TRANSACTION_CACHE_TTL)), Ok(s.txs[id]))
  }

  /** Horizon's answer to a submission. */
  datatype Answer =
    | NetworkError
    | ServerError
    | Refusal(result: HorizonResult, httpStatus: string)
    | Response(result: HorizonResult)

  function SubmissionPatch(r: HorizonResult): Patch {
    Patch(MapStatus(r), None, Some(if r.hash.Some? then r.hash.value else ""), r.ledger)
  }

  /** `times` are the clocks of the two possible writes, `dbOk` whether each reaches the database. */
  function Submit(can: (Status, Status) -> bool, s: State, id: string, a: Answer, times: (int, int), dbOk: (bool, bool))
    : (State, Result<Status, Error>)
  {
    match a
    case NetworkError => (s, Err(Unavailable))
    case ServerError => (s, Err(Unavailable))
    case Refusal(r, httpStatus) =>
      var code := if r.resultCode == None && r.extrasCode == None then httpStatus else TxCode(r);
      var (s', u) := Update(can, s, id, Patch(Failed, Some(code), None, None), times.0, dbOk.0);
      (s', if u.Err? then Err(u.error) else Err(Rejected))
    case Response(r) =>
      if MapStatus(r) == Confirmed then
        var (s', u) := Update(can, s, id, Patch(Submitted, None, None, None), times.0, dbOk.0);
        if u.Err? then (s', Err(u.error))
        else
          var (s'', u') := Update(can, s', id, SubmissionPatch(r), times.1, dbOk.1);
          (s'', if u'.Err? then Err(u'.error) else Ok(Confirmed))
      else
        var (s', u) := Update(can, s, id, SubmissionPatch(r), times.1, dbOk.1);
        (s', if u.Err? then Err(u.error) else Ok(MapStatus(r)))
  }

  /** Horizon's answer to a poll. */
  datatype Probe = Fails | Missing | Found(result: HorizonResult)

  datatype Tally = Tally(processed: nat, confirmed: nat, failed: nat, errors: nat)

  /** The result invented for a transaction that Horizon does not know. */
  const NOT_FOUND := HorizonResult(None, None, false, Some("tx_submitted"), None, None)

  function PollOne(
      can: (Status, Status) -> bool, s: State, t: Tally, id: string, hash: string, p: Probe, now: int, dbOk: bool)
    : (State, Tally)
  {
    var t := t.(processed := t.processed + 1);
    if hash == "" || p == Fails then (s, t.(errors := t.errors + 1))
    else
      var r := if p == Missing then NOT_FOUND else p.result;
      var status := MapStatus(r);
      if status == Submitted then (s, t)
      else
        var (s', u) := Update(can, s, id, Patch(status, None, None, r.ledger), now, dbOk);
        (s', if u.Err? then t.(errors := t.errors + 1)
             else if status == Confirmed then t.(confirmed := t.confirmed + 1)
             else if status == Failed then t.(failed := t.failed + 1)
             else t)
  }

  /** One row of a poll: the row's id and hash as read at the start, and how its turn goes. */
  datatype Turn = Turn(id: string, hash: string, probe: Probe, now: int, dbOk: bool)

  function Poll(can: (Status, Status) -> bool, s: State, turns: seq<Turn>): (State, Tally) {
    if turns == [] then (s, Tally(0, 0, 0, 0))
    else
      var (s', t) := Poll(can, s, turns[..|turns| - 1]);
      var turn := turns[|turns| - 1];
      PollOne(can, s', t, turn.id, turn.hash, turn.probe, turn.now, turn.dbOk)
  }

  class TransactionsService {
    var txs: Table
    const cache: CacheService<Tx>

    function Model(): State
      reads this, cache
    {
      State(txs, cache.entries)
    }

    constructor (cache: CacheService<Tx>)
      ensures txs == map[] && this.cache == cache
    {
      txs := map[];
      this.cache := cache;
    }

    /** `found` is the transaction that is returned: the new one, or one that already has the key. */
    method CreateTransaction(id: string, key: Option<string>, admission: Admission)
      returns (r: Creation, found: Option<string>)
      modifies this
      ensures (Model(), r) == Create(old(Model()), id, key, admission)
      ensures r == Created ==> found == Some(id)
      ensures r == Replayed ==> found.Some? && found.value in txs && txs[found.value].idempotencyKey == key
      ensures r.Denied? || r.Conflict? ==> found == None
    {
      if admission == BadMemo {
        return Denied(BadMemo), None;
      }
      var holders := set x | x in txs && key.Some? && txs[x].idempotencyKey == key;
      assert holders != {} <==> KeyUsed(txs, key) by {
        assert forall x :: x in txs && key.Some? && txs[x].idempotencyKey == key ==> x in holders;
      }
      if key != Some("") && holders != {} {
        var holder :| holder in holders;
        return Replayed, Some(holder);
      }
      if admission != Admitted {
        return Denied(admission), None;
      }
      if id in txs || holders != {} {
        return Conflict, None;
      }
      txs := txs[id := Tx(Pending, None, None, None, None, None, None, key)];
      return Created, Some(id);
    }

    method FindTransaction(id: string, now: int) returns (r: Result<Tx, Error>)
      modifies cache
      ensures (Model(), r) == FindOne(old(Model()), id, now)
    {
      var cached := cache.Lookup(Key(id), now);
      if cached.Some? {
        return Ok(cached.value);
      }
      if id !in txs {
        return Err(NotFound);
      }
      cache.Set(Key(id), txs[id], now, TRANSACTION_CACHE_TTL);
      return Ok(txs[id]);
    }

    method InvalidateCache(id: string)
      modifies cache
      ensures Model() == old(Model()).(cache := old(Model()).cache - {Key(id)})
    {
      var _ := cache.Delete(Key(id));
    }

    method UpdateStatus(can: (Status, Status) -> bool, id: string, p: Patch, now: int, dbOk: bool)
      returns (r: Result<Tx, Error>)
      modifies this, cache
      ensures (Model(), r) == Update(can, old(Model()), id, p, now, dbOk)
    {
      if id !in txs {
        return Err(NotFound);
      }
      var tx := txs[id];
      if !can(tx.status, p.status) {
        return Err(InvalidTransition);
      }
      var taken := set x | x in txs && x != id && p.hash.Some? && txs[x].stellarHash == p.hash;
      assert taken != {} <==> HashTaken(txs, id, p.hash) by {
        assert forall x :: x in txs && x != id && p.hash.Some? && txs[x].stellarHash == p.hash ==> x in taken;
      }
      if !dbOk || taken != {} {
        return Err(Database);
      }
      tx := tx.(status := p.status);
      if p.status == Submitted {
        tx := tx.(submittedAt := Some(now));
      } else if p.status == Confirmed {
        tx := tx.(confirmedAt := Some(now));
      } else if p.status == Failed {
        tx := tx.(failedAt := Some(now));
      }
      if p.reason.Some? {
        tx := tx.(statusReason := p.reason);
      }
      if p.hash.Some? {
        tx := tx.(stellarHash := p.hash);
      }
      if p.ledger.Some? {
        tx := tx.(stellarLedger := p.ledger);
      }
      txs := txs[id := tx];
      var _ := cache.Delete(Key(id));
      return Ok(tx);
    }

    method SubmitTransaction(
        can: (Status, Status) -> bool, id: string, a: Answer, times: (int, int), dbOk: (bool, bool))
      returns (r: Result<Status, Error>)
      modifies this, cache
      ensures (Model(), r) == Submit(can, old(Model()), id, a, times, dbOk)
    {
      if a.NetworkError? || a.ServerError? {
        return Err(Unavailable);
      }
      if a.Refusal? {
        var r := a.result;
        var code := if r.resultCode == None && r.extrasCode == None then a.httpStatus else TxCode(r);
        var u := UpdateStatus(can, id, Patch(Failed, Some(code), None, None), times.0, dbOk.0);
        return if u.Err? then Err(u.error) else Err(Rejected);
      }
      var status := MapStatus(a.result);
      if status == Confirmed {
        var u := UpdateStatus(can, id, Patch(Submitted, None, None, None), times.0, dbOk.0);
        if u.Err? {
          return Err(u.error);
        }
      }
      var hash := if a.result.hash.Some? then a.result.hash.value else "";
      var u := UpdateStatus(can, id, Patch(status, None, Some(hash), a.result.ledger), times.1, dbOk.1);
      return if u.Err? then Err(u.error) else Ok(status);
    }

    method PollPendingTransactions(can: (Status, Status) -> bool, turns: seq<Turn>) returns (t: Tally)
      modifies this, cache
      ensures (Model(), t) == Poll(can, old(Model()), turns)
    {
      t := Tally(0, 0, 0, 0);
      for i := 0 to |turns|
        invariant (Model(), t) == Poll(can, old(Model()), turns[..i])
      {
        assert turns[..i + 1][..i] == turns[..i];
        var turn := turns[i];
        t := t.(processed := t.processed + 1);
        if turn.hash == "" || turn.probe.Fails? {
          t := t.(errors := t.errors + 1);
        } else {
          var r := if turn.probe.Missing? then NOT_FOUND else turn.probe.result;
          var status := MapStatus(r);
          if status != Submitted {
            var u := UpdateStatus(can, turn.id, Patch(status, None, None, r.ledger), turn.now, turn.dbOk);
            if u.Err? {
              t := t.(errors := t.errors + 1);
            } else if status == Confirmed {
              t := t.(confirmed := t.confirmed + 1);
            } else if status == Failed {
              t := t.(failed := t.failed + 1);
            }
          }
        }
      }
      assert turns[..|turns|] == turns;
    }
  }

  // ----- The invariant -----

  ghost predicate RowOk(tx: Tx, clock: int) {
    && (tx.status == Submitted ==> tx.submittedAt.Some? && tx.submittedAt.value <= clock)
    && (tx.status == Confirmed ==>
          tx.submittedAt.Some? && tx.confirmedAt.Some? && tx.submittedAt.value <= tx.confirmedAt.value)
  }

  ghost predicate CacheOk(s: State) {
    forall id :: Key(id) in s.cache ==> id in s.txs && s.cache[Key(id)].value == s.txs[id]
  }

  ghost predicate Inv(s: State, clock: int) {
    CacheOk(s) && forall id :: id in s.txs ==> RowOk(s.txs[id], clock)
  }

  /** Rows never disappear, and a row in a terminal status never changes at all. */
  ghost predicate Settled(s: State, s': State) {
    forall id :: id in s.txs ==> id in s'.txs && (Terminal(s.txs[id].status) ==> s'.txs[id] == s.txs[id])
  }

  lemma KeyInjective(a: string, b: string)
    ensures Key(a) == Key(b) ==> a == b
  {
    assert Key(a)[12..] == a && Key(b)[12..] == b;
  }

  lemma UpdateKeeps(can: (Status, Status) -> bool, s: State, id: string, p: Patch, now: int, dbOk: bool, clock: int)
    requires Lawful(can) && Inv(s, clock) && clock <= now
    ensures var s' := Update(can, s, id, p, now, dbOk).0;
      Inv(s', now) && Settled(s, s')
  {
    var s' := Update(can, s, id, p, now, dbOk).0;
    forall x | Key(x) in s'.cache
      ensures x in s'.txs && s'.cache[Key(x)].value == s'.txs[x]
    {
      KeyInjective(x, id);
    }
    assert forall x :: x in s.txs ==> RowOk(s.txs[x], clock) ==> RowOk(s.txs[x], now);
    if id in s.txs {
      assert RowOk(s.txs[id], clock);
    }
  }

  lemma FindKeeps(s: State, id: string, now: int, clock: int)
    requires Inv(s, clock)
    ensures var (s', r) := FindOne(s, id, now);
      && Inv(s', clock) && s'.txs == s.txs
      && r == if id in s.txs then Ok(s.txs[id]) else Err(NotFound)
  {
    var s' := FindOne(s, id, now).0;
    forall x | Key(x) in s'.cache
      ensures x in s'.txs && s'.cache[Key(x)].value == s'.txs[x]
    {
      KeyInjective(x, id);
    }
  }

  lemma SubmitKeeps(
      can: (Status, Status) -> bool, s: State, id: string, a: Answer, times: (int, int), dbOk: (bool, bool), clock: int)
    requires Lawful(can) && Inv(s, clock) && clock <= times.0 <= times.1
    ensures var s' := Submit(can, s, id, a, times, dbOk).0;
      Inv(s', times.1) && Settled(s, s')
  {
    Later(s, clock, times.1);
    match a
    case Refusal(r, httpStatus) =>
      var code := if r.resultCode == None && r.extrasCode == None then httpStatus else TxCode(r);
      UpdateKeeps(can, s, id, Patch(Failed, Some(code), None, None), times.0, dbOk.0, clock);
      Later(Submit(can, s, id, a, times, dbOk).0, times.0, times.1);
    case Response(r) =>
      if MapStatus(r) == Confirmed {
        var first := Patch(Submitted, None, None, None);
        UpdateKeeps(can, s, id, first, times.0, dbOk.0, clock);
        var s' := Update(can, s, id, first, times.0, dbOk.0).0;
        Later(s', times.0, times.1);
        UpdateKeeps(can, s', id, SubmissionPatch(r), times.1, dbOk.1, times.0);
        SettledTransitive(s, s', Update(can, s', id, SubmissionPatch(r), times.1, dbOk.1).0);
      } else {
        UpdateKeeps(can, s, id, SubmissionPatch(r), times.1, dbOk.1, clock);
      }
    case _ =>
  }

  lemma Later(s: State, clock: int, now: int)
    requires Inv(s, clock) && clock <= now
    ensures Inv(s, now)
  {
    assert forall x :: x in s.txs ==> RowOk(s.txs[x], clock) ==> RowOk(s.txs[x], now);
  }

  /** The clock after a poll that began at `clock`. */
  function PollClock(clock: int, turns: seq<Turn>): int {
    if turns == [] then clock else turns[|turns| - 1].now
  }

  ghost predicate Ascending(clock: int, turns: seq<Turn>) {
    && (forall i :: 0 <= i < |turns| ==> clock <= turns[i].now)
    && (forall i, j :: 0 <= i < j < |turns| ==> turns[i].now <= turns[j].now)
  }

  lemma PollOneKeeps(can: (Status, Status) -> bool, s: State, t: Tally, turn: Turn, clock: int)
    requires Lawful(can) && Inv(s, clock) && clock <= turn.now
    ensures var s' := PollOne(can, s, t, turn.id, turn.hash, turn.probe, turn.now, turn.dbOk).0;
      Inv(s', turn.now) && Settled(s, s')
  {
    Later(s, clock, turn.now);
    var r := if turn.probe.Found? then turn.probe.result else NOT_FOUND;
    UpdateKeeps(can, s, turn.id, Patch(MapStatus(r), None, None, r.ledger), turn.now, turn.dbOk, clock);
  }

  lemma SettledTransitive(s: State, s': State, s'': State)
    requires Settled(s, s') && Settled(s', s'')
    ensures Settled(s, s'')
  {
  }

  lemma {:induction false} PollKeeps(can: (Status, Status) -> bool, s: State, turns: seq<Turn>, clock: int)
    requires Lawful(can) && Inv(s, clock) && Ascending(clock, turns)
    ensures var (s', t) := Poll(can, s, turns);
      && Inv(s', PollClock(clock, turns)) && Settled(s, s')
      && t.processed == |turns| && t.confirmed + t.failed + t.errors <= |turns|
  {
    if turns != [] {
      var n := |turns| - 1;
      PollKeeps(can, s, turns[..n], clock);
      var (m, t) := Poll(can, s, turns[..n]);
      PollOneKeeps(can, m, t, turns[n], PollClock(clock, turns[..n]));
      SettledTransitive(s, m, Poll(can, s, turns).0);
    }
  }

  // ----- Runs -----

  datatype Op =
    | DoCreate(id: string, key: Option<string>, admission: Admission)
    | DoFind(id: string, now: int)
    | DoInvalidate(id: string)
      /** The balance index clears the shared cache. */
    | DoClear
    | DoUpdate(id: string, patch: Patch, now: int, dbOk: bool)
    | DoSubmit(id: string, answer: Answer, times: (int, int), reached: (bool, bool))
    | DoPoll(turns: seq<Turn>)

  function Step(can: (Status, Status) -> bool, s: State, op: Op): State {
    match op
    case DoCreate(id, key, admission) => Create(s, id, key, admission).0
    case DoFind(id, now) => FindOne(s, id, now).0
    case DoInvalidate(id) => s.(cache := s.cache - {Key(id)})
    case DoClear => s.(cache := map[])
    case DoUpdate(id, p, now, dbOk) => Update(can, s, id, p, now, dbOk).0
    case DoSubmit(id, a, times, dbOk) => Submit(can, s, id, a, times, dbOk).0
    case DoPoll(turns) => Poll(can, s, turns).0
  }

  /** The clock after a step, and whether the step's own times follow on from the clock before it. */
  function ClockAfter(clock: int, op: Op): int {
    match op
    case DoUpdate(_, _, now, _) => now
    case DoSubmit(_, _, times, _) => times.1
    case DoPoll(turns) => PollClock(clock, turns)
    case _ => clock
  }

  ghost predicate Timely(clock: int, op: Op) {
    match op
    case DoUpdate(_, _, now, _) => clock <= now
    case DoSubmit(_, _, times, _) => clock <= times.0 <= times.1
    case DoPoll(turns) => Ascending(clock, turns)
    case _ => true
  }

  function Run(can: (Status, Status) -> bool, ops: seq<Op>): (State, int) {
    if ops == [] then (State(map[], map[]), 0)
    else
      var (s, clock) := Run(can, ops[..|ops| - 1]);
      (Step(can, s, ops[|ops| - 1]), ClockAfter(clock, ops[|ops| - 1]))
  }

  /** The clock does not run backwards. */
  ghost predicate Chronological(can: (Status, Status) -> bool, ops: seq<Op>) {
    forall i :: 0 <= i < |ops| ==> Timely(Run(can, ops[..i]).1, ops[i])
  }

  lemma ChronologicalPrefix(can: (Status, Status) -> bool, ops: seq<Op>, n: nat)
    requires Chronological(can, ops) && n < |ops|
    ensures Chronological(can, ops[..n]) && Timely(Run(can, ops[..n]).1, ops[n])
  {
    assert forall i :: 0 <= i < n ==> ops[..n][..i] == ops[..i];
  }

  lemma StepKeeps(can: (Status, Status) -> bool, s: State, op: Op, clock: int)
    requires Lawful(can) && Inv(s, clock) && Timely(clock, op)
    ensures Inv(Step(can, s, op), ClockAfter(clock, op)) && Settled(s, Step(can, s, op))
  {
    match op
    case DoFind(id, now) => FindKeeps(s, id, now, clock);
    case DoUpdate(id, p, now, dbOk) => UpdateKeeps(can, s, id, p, now, dbOk, clock);
    case DoSubmit(id, a, times, dbOk) => SubmitKeeps(can, s, id, a, times, dbOk, clock);
    case DoPoll(turns) => PollKeeps(can, s, turns, clock);
    case DoCreate(id, key, admission) => CreateKeeps(s, id, key, admission, clock);
    case _ =>
  }

  lemma CreateKeeps(s: State, id: string, key: Option<string>, admission: Admission, clock: int)
    requires Inv(s, clock)
    ensures var s' := Create(s, id, key, admission).0;
      Inv(s', clock) && Settled(s, s')
  {
  }

  lemma {:induction false} RunKeeps(can: (Status, Status) -> bool, ops: seq<Op>)
    requires Lawful(can) && Chronological(can, ops)
    ensures Inv(Run(can, ops).0, Run(can, ops).1)
  {
    if ops != [] {
      var n := |ops| - 1;
      ChronologicalPrefix(can, ops, n);
      RunKeeps(can, ops[..n]);
      StepKeeps(can, Run(can, ops[..n]).0, ops[n], Run(can, ops[..n]).1);
    }
  }

  // ----- Theorems over every serial run -----

  /** A cached read equals the plain table read, at any time. */
  lemma CachedReadIsPlainRead(can: (Status, Status) -> bool, ops: seq<Op>, id: string, now: int)
    requires Lawful(can) && Chronological(can, ops)
    ensures var s := Run(can, ops).0;
      FindOne(s, id, now).1 == if id in s.txs then Ok(s.txs[id]) else Err(NotFound)
  {
    RunKeeps(can, ops);
    FindKeeps(Run(can, ops).0, id, now, Run(can, ops).1);
  }

  /** Every confirmed row was submitted first. */
  lemma ConfirmedAfterSubmitted(can: (Status, Status) -> bool, ops: seq<Op>, id: string)
    requires Lawful(can) && Chronological(can, ops)
    requires id in Run(can, ops).0.txs && Run(can, ops).0.txs[id].status == Confirmed
    ensures var tx := Run(can, ops).0.txs[id];
      tx.submittedAt.Some? && tx.confirmedAt.Some? && tx.submittedAt.value <= tx.confirmedAt.value
  {
    RunKeeps(can, ops);
    assert RowOk(Run(can, ops).0.txs[id], Run(can, ops).1);
  }

  lemma RunSnoc(can: (Status, Status) -> bool, ops: seq<Op>)
    requires ops != []
    ensures var n := |ops| - 1;
      Run(can, ops).0 == Step(can, Run(can, ops[..n]).0, ops[n])
  {
  }

  lemma {:induction false} RunSettles(can: (Status, Status) -> bool, ops: seq<Op>, n: nat)
    requires Lawful(can) && Chronological(can, ops) && n <= |ops|
    ensures Settled(Run(can, ops[..n]).0, Run(can, ops).0)
  {
    var m := |ops| - 1;
    if n < |ops| {
      ChronologicalPrefix(can, ops, m);
      RunSettles(can, ops[..m], n);
      assert ops[..m][..n] == ops[..n];
      RunKeeps(can, ops[..m]);
      RunSnoc(can, ops);
      StepKeeps(can, Run(can, ops[..m]).0, ops[m], Run(can, ops[..m]).1);
      SettledTransitive(Run(can, ops[..n]).0, Run(can, ops[..m]).0, Run(can, ops).0);
    } else {
      assert ops[..n] == ops;
    }
  }

  /** Once a row is confirmed or failed, no later step of the run changes it. */
  lemma TerminalIsFinal(can: (Status, Status) -> bool, ops: seq<Op>, n: nat, id: string)
    requires Lawful(can) && Chronological(can, ops) && n <= |ops|
    requires id in Run(can, ops[..n]).0.txs && Terminal(Run(can, ops[..n]).0.txs[id].status)
    ensures id in Run(can, ops).0.txs && Run(can, ops).0.txs[id] == Run(can, ops[..n]).0.txs[id]
  {
    RunSettles(can, ops, n);
  }

  /** The repository's own relation meets the assumption. */
  lemma AllowedIsLawful()
    ensures Lawful(Allowed)
  {
  }

  // ----- What a poll decides -----

  /** Horizon's answer leaves a transaction in flight: HTTP 202, or `tx_queued` without success. */
  predicate InFlight(r: HorizonResult) {
    r.httpStatus == Some(202) || (!r.successful && TxCode(r) == "tx_queued")
  }

  /** The turn cannot settle its row: no hash, no answer, an answer in flight, or a failing write. */
  predicate Unsettling(turn: Turn) {
    turn.hash == "" || turn.probe.Fails? || !turn.dbOk || (turn.probe.Found? && InFlight(turn.probe.result))
  }

  /** Horizon reports the transaction, or the inner one of a fee bump, as successful. */
  predicate Succeeded(r: HorizonResult) {
    r.successful || TxCode(r) in {"tx_success", "tx_fee_bump_inner_success"}
  }

  /** What a turn makes of a submitted row; a transaction that Horizon does not know is lost. */
  function Settles(turn: Turn): Status {
    if Unsettling(turn) then Submitted
    else if turn.probe.Found? && Succeeded(turn.probe.result) then Confirmed
    else Failed
  }

  lemma PollOneDecides(can: (Status, Status) -> bool, s: State, t: Tally, turn: Turn)
    requires can(Submitted, Confirmed) && can(Submitted, Failed)
    requires turn.id in s.txs && s.txs[turn.id].status == Submitted
    ensures var s' := PollOne(can, s, t, turn.id, turn.hash, turn.probe, turn.now, turn.dbOk).0;
      && turn.id in s'.txs && s'.txs[turn.id].status == Settles(turn)
      && (Settles(turn) == Submitted <==> Unsettling(turn))
  {
  }

  lemma {:induction false} PollFrame(can: (Status, Status) -> bool, s: State, turns: seq<Turn>, id: string)
    requires id in s.txs && forall i :: 0 <= i < |turns| ==> turns[i].id != id
    ensures var s' := Poll(can, s, turns).0;
      id in s'.txs && s'.txs[id] == s.txs[id]
  {
    if turns != [] {
      PollFrame(can, s, turns[..|turns| - 1], id);
    }
  }

  /**
   * A poll over rows read as SUBMITTED leaves the k-th of them SUBMITTED exactly if its own turn is unsettling, and
   * otherwise makes it CONFIRMED exactly if Horizon reported success, whatever the other turns do.
   */
  lemma {:induction false} PollDecides(can: (Status, Status) -> bool, s: State, turns: seq<Turn>, k: nat)
    requires can(Submitted, Confirmed) && can(Submitted, Failed) && k < |turns|
    requires forall i, j :: 0 <= i < j < |turns| ==> turns[i].id != turns[j].id
    requires turns[k].id in s.txs && s.txs[turns[k].id].status == Submitted
    ensures var s' := Poll(can, s, turns).0;
      && turns[k].id in s'.txs && s'.txs[turns[k].id].status == Settles(turns[k])
      && (s'.txs[turns[k].id].status == Submitted <==> Unsettling(turns[k]))
  {
    var n := |turns| - 1;
    var (m, t) := Poll(can, s, turns[..n]);
    if k == n {
      PollFrame(can, s, turns[..n], turns[k].id);
      PollOneDecides(can, m, t, turns[n]);
    } else {
      PollDecides(can, s, turns[..n], k);
    }
  }

  /** The turn is counted as an error: nothing to ask for, no answer, or a settling write that fails. */
  predicate Errs(turn: Turn) {
    turn.hash == "" || turn.probe.Fails? || (!turn.dbOk && !(turn.probe.Found? && InFlight(turn.probe.result)))
  }

  /** How many turns settle their rows to a status. */
  function CountSettled(turns: seq<Turn>, status: Status): nat {
    if turns == [] then 0
    else CountSettled(turns[..|turns| - 1], status) + if Settles(turns[|turns| - 1]) == status then 1 else 0
  }

  function CountErrs(turns: seq<Turn>): nat {
    if turns == [] then 0 else CountErrs(turns[..|turns| - 1]) + if Errs(turns[|turns| - 1]) then 1 else 0
  }

  lemma PollOneCounts(can: (Status, Status) -> bool, s: State, t: Tally, turn: Turn)
    requires can(Submitted, Confirmed) && can(Submitted, Failed)
    requires turn.id in s.txs && s.txs[turn.id].status == Submitted
    ensures PollOne(can, s, t, turn.id, turn.hash, turn.probe, turn.now, turn.dbOk).1
      == Tally(t.processed + 1, t.confirmed + (if Settles(turn) == Confirmed then 1 else 0),
               t.failed + (if Settles(turn) == Failed then 1 else 0), t.errors + (if Errs(turn) then 1 else 0))
  {
  }

  /** The counters of a poll are exactly the rows it confirmed, the rows it failed, and the turns that erred. */
  lemma {:induction false} PollCounts(can: (Status, Status) -> bool, s: State, turns: seq<Turn>)
    requires can(Submitted, Confirmed) && can(Submitted, Failed)
    requires forall i, j :: 0 <= i < j < |turns| ==> turns[i].id != turns[j].id
    requires forall i :: 0 <= i < |turns| ==> turns[i].id in s.txs && s.txs[turns[i].id].status == Submitted
    ensures Poll(can, s, turns).1
      == Tally(|turns|, CountSettled(turns, Confirmed), CountSettled(turns, Failed), CountErrs(turns))
  {
    if turns != [] {
      var n := |turns| - 1;
      PollCounts(can, s, turns[..n]);
      PollFrame(can, s, turns[..n], turns[n].id);
      var (m, t) := Poll(can, s, turns[..n]);
      PollOneCounts(can, m, t, turns[n]);
    }
  }

  /**
   * So a poll for a submitted transaction that Horizon does not know yet makes it FAILED for good, although the
   * result invented for that case is meant to leave it SUBMITTED.
   */
  lemma MissingPollFails(s: State, turns: seq<Turn>, k: nat)
    requires k < |turns| && forall i, j :: 0 <= i < j < |turns| ==> turns[i].id != turns[j].id
    requires turns[k].id in s.txs && s.txs[turns[k].id].status == Submitted
    requires turns[k].probe == Missing && turns[k].hash != "" && turns[k].dbOk
    ensures var (s', t) := Poll(Allowed, s, turns);
      && turns[k].id in s'.txs && s'.txs[turns[k].id].status == Failed
      && (|turns| == 1 ==> t == Tally(1, 0, 1, 0))
  {
    PollDecides(Allowed, s, turns, k);
    if |turns| == 1 {
      PollCounts(Allowed, s, turns);
      assert turns[..0] == [];
    }
  }

  // ----- One transaction per idempotency key -----

  /** Rows stay and keep their keys; no row with a key appears. */
  ghost predicate KeepsKeys(txs: Table, txs': Table) {
    txs.Keys == txs'.Keys && forall x :: x in txs ==> txs'[x].idempotencyKey == txs[x].idempotencyKey
  }

  predicate SameKey(a: Tx, b: Tx) {
    a.idempotencyKey.Some? && a.idempotencyKey == b.idempotencyKey
  }

  ghost predicate KeysUnique(txs: Table) {
    forall x, y :: x in txs && y in txs && SameKey(txs[x], txs[y]) ==> x == y
  }

  lemma UpdateKeepsKeys(can: (Status, Status) -> bool, s: State, id: string, p: Patch, now: int, dbOk: bool)
    ensures KeepsKeys(s.txs, Update(can, s, id, p, now, dbOk).0.txs)
  {
  }

  lemma SubmitKeepsKeys(
      can: (Status, Status) -> bool, s: State, id: string, a: Answer, times: (int, int), dbOk: (bool, bool))
    ensures KeepsKeys(s.txs, Submit(can, s, id, a, times, dbOk).0.txs)
  {
    match a
    case Refusal(r, httpStatus) =>
      var code := if r.resultCode == None && r.extrasCode == None then httpStatus else TxCode(r);
      UpdateKeepsKeys(can, s, id, Patch(Failed, Some(code), None, None), times.0, dbOk.0);
    case Response(r) =>
      UpdateKeepsKeys(can, s, id, Patch(Submitted, None, None, None), times.0, dbOk.0);
      var s' := Update(can, s, id, Patch(Submitted, None, None, None), times.0, dbOk.0).0;
      UpdateKeepsKeys(can, s', id, SubmissionPatch(r), times.1, dbOk.1);
      UpdateKeepsKeys(can, s, id, SubmissionPatch(r), times.1, dbOk.1);
    case _ =>
  }

  lemma PollOneKeepsKeys(can: (Status, Status) -> bool, s: State, t: Tally, turn: Turn)
    ensures KeepsKeys(s.txs, PollOne(can, s, t, turn.id, turn.hash, turn.probe, turn.now, turn.dbOk).0.txs)
  {
    var r := if turn.probe.Found? then turn.probe.result else NOT_FOUND;
    UpdateKeepsKeys(can, s, turn.id, Patch(MapStatus(r), None, None, r.ledger), turn.now, turn.dbOk);
  }

  lemma {:induction false} PollKeepsKeys(can: (Status, Status) -> bool, s: State, turns: seq<Turn>)
    ensures KeepsKeys(s.txs, Poll(can, s, turns).0.txs)
  {
    if turns != [] {
      var n := |turns| - 1;
      PollKeepsKeys(can, s, turns[..n]);
      PollOneKeepsKeys(can, Poll(can, s, turns[..n]).0, Poll(can, s, turns[..n]).1, turns[n]);
    }
  }

  /** Only a creation adds a row, and only under a key that is not in use. */
  lemma StepKeepsKeys(can: (Status, Status) -> bool, s: State, op: Op)
    requires KeysUnique(s.txs)
    ensures var txs := Step(can, s, op).txs;
      && KeysUnique(txs) && s.txs.Keys <= txs.Keys
      && forall x :: x in s.txs ==> txs[x].idempotencyKey == s.txs[x].idempotencyKey
  {
    var txs := Step(can, s, op).txs;
    match op
    case DoCreate(_, _, _) =>
    case DoUpdate(id, p, now, dbOk) =>
      UpdateKeepsKeys(can, s, id, p, now, dbOk);
      assert KeepsKeys(s.txs, txs);
    case DoSubmit(id, a, times, dbOk) =>
      SubmitKeepsKeys(can, s, id, a, times, dbOk);
      assert KeepsKeys(s.txs, txs);
    case DoPoll(turns) =>
      PollKeepsKeys(can, s, turns);
      assert KeepsKeys(s.txs, txs);
    case _ =>
      assert txs == s.txs;
  }

  lemma {:induction false} RunKeepsKeys(can: (Status, Status) -> bool, ops: seq<Op>, n: nat)
    requires n <= |ops|
    ensures var before, after := Run(can, ops[..n]).0.txs, Run(can, ops).0.txs;
      && KeysUnique(after) && before.Keys <= after.Keys
      && forall x :: x in before ==> after[x].idempotencyKey == before[x].idempotencyKey
  {
    if n < |ops| {
      var m := |ops| - 1;
      assert ops[..m][..n] == ops[..n];
      RunKeepsKeys(can, ops[..m], n);
      StepKeepsKeys(can, Run(can, ops[..m]).0, ops[m]);
    } else {
      assert ops[..n] == ops;
      if ops != [] {
        var m := |ops| - 1;
        RunKeepsKeys(can, ops[..m], m);
        StepKeepsKeys(can, Run(can, ops[..m]).0, ops[m]);
      }
    }
  }

  /**
   * In every run an idempotency key belongs to at most one transaction, and once it has one, any later creation with
   * the key adds nothing: it is a replay of that transaction, or refused for its memo or for an empty key.
   */
  lemma OneTransactionPerKey(
      can: (Status, Status) -> bool, ops: seq<Op>, n: nat, x: string, y: string, id: string, admission: Admission)
    requires n <= |ops| && x in Run(can, ops[..n]).0.txs && Run(can, ops[..n]).0.txs[x].idempotencyKey.Some?
    ensures var key := Run(can, ops[..n]).0.txs[x].idempotencyKey;
      var s := Run(can, ops).0;
      var (s', r) := Create(s, id, key, admission);
      && s' == s && (r == Replayed <==> admission != BadMemo && key != Some(""))
      && x in s.txs && s.txs[x].idempotencyKey == key
      && (y in s.txs && s.txs[y].idempotencyKey == key ==> y == x)
  {
    RunKeepsKeys(can, ops, n);
  }

  // ----- What an update, a submission and a creation leave behind -----

  /**
   * An update happens exactly if the row is there, the relation allows the change, the write succeeds and no other row
   * has the hash. It stamps the time of the status it sets, keeps every column it is not given a value for, touches no
   * other row, and drops the cache entry. Otherwise nothing changes, and the first of these reasons is named.
   */
  lemma UpdateDecides(can: (Status, Status) -> bool, s: State, id: string, p: Patch, now: int, dbOk: bool)
    ensures var (s', r) := Update(can, s, id, p, now, dbOk);
      var allowed := id in s.txs && can(s.txs[id].status, p.status);
      && (r.Ok? <==> allowed && dbOk && (p.hash.Some? ==>
            forall x :: x in s.txs && x != id ==> s.txs[x].stellarHash != p.hash))
      && (r == Err(NotFound) <==> id !in s.txs)
      && (r == Err(InvalidTransition) <==> id in s.txs && !allowed)
      && (r.Err? ==> s' == s)
      && (r.Ok? ==>
            && s'.txs == s.txs[id := r.value] && s'.cache == s.cache - {Key(id)}
            && var tx, tx' := s.txs[id], r.value;
            && tx'.status == p.status && tx'.idempotencyKey == tx.idempotencyKey
            && tx'.submittedAt == (if p.status == Submitted then Some(now) else tx.submittedAt)
            && tx'.confirmedAt == (if p.status == Confirmed then Some(now) else tx.confirmedAt)
            && tx'.failedAt == (if p.status == Failed then Some(now) else tx.failedAt)
            && tx'.stellarHash == (if p.hash == None then tx.stellarHash else p.hash)
            && tx'.stellarLedger == (if p.ledger == None then tx.stellarLedger else p.ledger)
            && tx'.statusReason == (if p.reason == None then tx.statusReason else p.reason))
  {
  }

  /** The reason stored for a refused submission: Horizon's code if it names one, else the HTTP status. */
  function RefusalCode(r: HorizonResult, httpStatus: string): string {
    match (r.resultCode, r.extrasCode)
    case (Some(code), _) => code
    case (None, Some(code)) => code
    case (None, None) => httpStatus
  }

  /** The row after a submission whose writes succeed: what Horizon answers decides status, times, hash and ledger. */
  function RowAfterSubmit(tx: Tx, a: Answer, times: (int, int)): Tx {
    match a
    case NetworkError => tx
    case ServerError => tx
    case Refusal(r, httpStatus) =>
      tx.(status := Failed, failedAt := Some(times.0), statusReason := Some(RefusalCode(r, httpStatus)))
    case Response(r) =>
      var sent := tx.(stellarHash := Some(if r.hash.Some? then r.hash.value else ""),
                      stellarLedger := if r.ledger.Some? then r.ledger else tx.stellarLedger);
      if InFlight(r) then sent.(status := Submitted, submittedAt := Some(times.1))
      else if Succeeded(r) then
        sent.(status := Confirmed, submittedAt := Some(times.0), confirmedAt := Some(times.1))
      else sent.(status := Failed, failedAt := Some(times.1))
  }

  /** No other row has the hash that the answer brings. */
  predicate HashFree(txs: Table, id: string, a: Answer) {
    a.Response? ==> forall x :: x in txs && x != id ==>
      txs[x].stellarHash != Some(if a.result.hash.Some? then a.result.hash.value else "")
  }

  /**
   * A submission of a PENDING transaction whose writes succeed leaves exactly that row, and no other change in the
   * table; it returns the new status, or an error if Horizon cannot be reached or refuses.
   */
  lemma SubmitDecides(s: State, id: string, a: Answer, times: (int, int))
    requires id in s.txs && s.txs[id].status == Pending && HashFree(s.txs, id, a)
    ensures var (s', r) := Submit(Allowed, s, id, a, times, (true, true));
      var tx' := RowAfterSubmit(s.txs[id], a, times);
      && s'.txs == s.txs[id := tx']
      && r == (match a
               case Refusal(_, _) => Err(Rejected)
               case Response(_) => Ok(tx'.status)
               case _ => Err(Unavailable))
  {
    match a
    case NetworkError =>
      assert s.txs[id := s.txs[id]] == s.txs;
    case ServerError =>
      assert s.txs[id := s.txs[id]] == s.txs;
    case Refusal(r, httpStatus) =>
      UpdateDecides(Allowed, s, id, Patch(Failed, Some(RefusalCode(r, httpStatus)), None, None), times.0, true);
    case Response(r) =>
      if MapStatus(r) == Confirmed {
        ConfirmTwice(s, id, r, times);
      } else {
        UpdateDecides(Allowed, s, id, SubmissionPatch(r), times.1, true);
      }
  }

  lemma ConfirmTwice(s: State, id: string, r: HorizonResult, times: (int, int))
    requires id in s.txs && s.txs[id].status == Pending && HashFree(s.txs, id, Response(r)) && MapStatus(r) == Confirmed
    ensures var (s', reply) := Submit(Allowed, s, id, Response(r), times, (true, true));
      s'.txs == s.txs[id := RowAfterSubmit(s.txs[id], Response(r), times)] && reply == Ok(Confirmed)
  {
    var first := Patch(Submitted, None, None, None);
    UpdateDecides(Allowed, s, id, first, times.0, true);
    var m := Update(Allowed, s, id, first, times.0, true).0;
    UpdateDecides(Allowed, m, id, SubmissionPatch(r), times.1, true);
  }

  /** The status that a submission writes first for an answer: a confirmed one is first written as submitted. */
  function FirstStatus(a: Answer): Status
    requires a.Refusal? || a.Response?
  {
    if a.Refusal? || (!InFlight(a.result) && !Succeeded(a.result)) then Failed else Submitted
  }

  /** A submission whose first write is refused or fails stops there: nothing changes, and the error is that write's. */
  lemma SubmitStops(
      can: (Status, Status) -> bool, s: State, id: string, a: Answer, times: (int, int), dbOk: (bool, bool))
    requires (a.Refusal? || a.Response?) && HashFree(s.txs, id, a) && dbOk.0 == dbOk.1
    requires id !in s.txs || !can(s.txs[id].status, FirstStatus(a)) || !dbOk.0
    ensures var (s', r) := Submit(can, s, id, a, times, dbOk);
      && s' == s
      && r == Err(if id !in s.txs then NotFound
                  else if !can(s.txs[id].status, FirstStatus(a)) then InvalidTransition else Database)
  {
  }

  /** When the second write of a confirmed submission fails, the row is left SUBMITTED with the hash it had before. */
  lemma HalfSubmitted(s: State, id: string, r: HorizonResult, times: (int, int))
    requires id in s.txs && s.txs[id].status == Pending && !InFlight(r) && Succeeded(r)
    ensures var (s', reply) := Submit(Allowed, s, id, Response(r), times, (true, false));
      && s'.txs == s.txs[id := s.txs[id].(status := Submitted, submittedAt := Some(times.0))]
      && reply == Err(Database)
  {
    var first := Patch(Submitted, None, None, None);
    UpdateDecides(Allowed, s, id, first, times.0, true);
    var m := Update(Allowed, s, id, first, times.0, true).0;
    UpdateDecides(Allowed, m, id, SubmissionPatch(r), times.1, false);
  }

  /** A transaction is created exactly if all checks pass and neither its id nor its key is in use. */
  lemma CreateDecides(s: State, id: string, key: Option<string>, admission: Admission)
    ensures var (s', r) := Create(s, id, key, admission);
      var used := key.Some? && exists x :: x in s.txs && s.txs[x].idempotencyKey == key;
      && (r == Created <==> admission == Admitted && !used && id !in s.txs)
      && (r == Replayed <==> admission != BadMemo && used && key != Some(""))
      && (r.Denied? <==> admission == BadMemo || (admission != Admitted && !(used && key != Some(""))))
      && (r.Denied? ==> r.admission == admission)
      && s'.cache == s.cache
      && s'.txs == (if r == Created then s.txs[id := Tx(Pending, None, None, None, None, None, None, key)] else s.txs)
  {
  }

  /** A successful read leaves the row in the cache for five minutes, and changes no other entry. */
  lemma ReadIsCached(s: State, id: string, now: int)
    requires Key(id) !in s.cache && id in s.txs
    ensures FindOne(s, id, now).0 == s.(cache := s.cache[Key(id) := Entry(s.txs[id], now + 5 * 60 * 1000)])
  {
  }
}
