/**
 * Wallet creation with its idempotency records, and key rotation. Wallet rows are never deleted here, so a
 * wallet's id is its row number. Creation runs in one database transaction that any phase may abort.
 */
module Wallets {
  import opened Prelude
  import opened Cache

  const IDEMPOTENCY_TTL_MS := 24 * 60 * 60 * 1000
  const CACHE_TTL_MS := 300_000

  datatype Network = Mainnet | Testnet

  datatype WalletStatus = Provisioning | Active | Rotating | Suspended | Disabled | Compromised | Archived

  datatype Wallet = Wallet(
    userId: string, network: Network, publicKey: string, status: WalletStatus, secretVersion: nat,
    rotatedFromId: Option<nat>, successorId: Option<nat>)

  /** A wallet as handed to callers and caches: its id and its row at that moment. */
  datatype Snapshot = Snapshot(id: nat, wallet: Wallet)

  datatype Record = Record(userId: string, network: Network, snapshot: Snapshot, isNewWallet: bool, expiresAt: int)

  datatype Db = Db(wallets: seq<Wallet>, records: map<string, Record>)

  datatype State = State(db: Db, cache: Entries<Snapshot>)

  datatype Request = Request(userId: string, network: Network, idempotencyKey: Option<string>)

  datatype Phase =
    | UserResolution | WalletLookup | IdempotencyCheck | KeyGeneration | WalletPersist | WalletActivation
    | FinalActivation | IdempotencyStore | Commit

  /** What a call meets: the clock, the phases that fail, the generated key, and which of several rows is found. */
  datatype Env = Env(now: int, faults: set<Phase>, publicKey: string, privateKey: string, pick: nat)

  datatype Error = PhaseFailed(phase: Phase) | KeyConflict | WalletNotFound | NotRotatable | HasSuccessor

  datatype Reply =
    | Replied(snapshot: Snapshot, privateKey: string, isNewWallet: bool)
    | RotatedTo(successorId: nat)
    | Cleared
    | Refused(error: Error)

  // ----- Lookups -----

  predicate Owns(w: Wallet, userId: string, network: Network) {
    w.userId == userId && w.network == network
  }

  /** The ids of a user's wallets on a network, oldest first. */
  function Owned(wallets: seq<Wallet>, userId: string, network: Network): (ids: seq<nat>)
    ensures forall i :: 0 <= i < |ids| ==> ids[i] < |wallets| && Owns(wallets[ids[i]], userId, network)
  {
    if wallets == [] then []
    else
      var n := |wallets| - 1;
      Owned(wallets[..n], userId, network) + if Owns(wallets[n], userId, network) then [n] else []
  }

  function NetworkName(n: Network): string {
    if n == Mainnet then "MAINNET" else "TESTNET"
  }

  function CacheKey(userId: string, network: Network): string {
    "wallet:user:" + userId + ":" + NetworkName(network)
  }

  datatype Lookup = Lookup(cache: Entries<Snapshot>, result: Result<Option<Snapshot>, Error>)

  /** The cached wallet, or any row of the user on the network, which is then cached under `key`. */
  function FindUnder(s: State, key: string, userId: string, network: Network, env: Env): Lookup {
    var (cache, hit) := Get(s.cache, key, env.now);
    if hit.Some? then Lookup(cache, Ok(hit))
    else if WalletLookup in env.faults then Lookup(cache, Err(PhaseFailed(WalletLookup)))
    else
      var ids := Owned(s.db.wallets, userId, network);
      if ids == [] then Lookup(cache, Ok(None))
      else
        var id := ids[if env.pick < |ids| then env.pick else 0];
        var found := Snapshot(id, s.db.wallets[id]);
        Lookup(Put(cache, key, found, env.now, CACHE_TTL_MS), Ok(Some(found)))
  }

  function FindExisting(s: State, userId: string, network: Network, env: Env): Lookup {
    FindUnder(s, CacheKey(userId, network), userId, network, env)
  }

  // ----- Creation -----

  /** An empty key is no key. */
  predicate Keyed(req: Request) {
    req.idempotencyKey.Some? && req.idempotencyKey.value != ""
  }

  datatype KeyCheck = NoRecord | Lapsed | Conflicting | Replay(record: Record)

  function CheckKey(records: map<string, Record>, req: Request, now: int): KeyCheck {
    if !Keyed(req) || req.idempotencyKey.value !in records then NoRecord
    else
      var record := records[req.idempotencyKey.value];
      if record.expiresAt < now then Lapsed
      else if record.userId != req.userId || record.network != req.network then Conflicting
      else Replay(record)
  }

  /** Insert as PROVISIONING, activate twice, and store the idempotency record; storing may fail without harm. */
  function AddWallet(db: Db, req: Request, env: Env): Result<(Db, Reply), Error> {
    if KeyGeneration in env.faults then Err(PhaseFailed(KeyGeneration))
    else if WalletPersist in env.faults then Err(PhaseFailed(WalletPersist))
    else if WalletActivation in env.faults then Err(PhaseFailed(WalletActivation))
    else if FinalActivation in env.faults then Err(PhaseFailed(FinalActivation))
    else
      var wallet := Wallet(req.userId, req.network, env.publicKey, Active, 1, None, None);
      var snapshot := Snapshot(|db.wallets|, wallet);
      var record := Record(req.userId, req.network, snapshot, true, env.now + IDEMPOTENCY_TTL_MS);
      var stored := Keyed(req) && IdempotencyStore !in env.faults;
      Ok((Db(db.wallets + [wallet], if stored then db.records[req.idempotencyKey.value := record] else db.records),
          Replied(snapshot, env.privateKey, true)))
  }

  function InTransaction(db: Db, req: Request, env: Env, existing: Option<Snapshot>): Result<(Db, Reply), Error> {
    if Keyed(req) && IdempotencyCheck in env.faults then Err(PhaseFailed(IdempotencyCheck))
    else
      var check := CheckKey(db.records, req, env.now);
      match check
      case Conflicting => Err(KeyConflict)
      case Replay(record) => Ok((db, Replied(record.snapshot, "", record.isNewWallet)))
      case _ =>
        var db := if check == Lapsed then db.(records := db.records - {req.idempotencyKey.value}) else db;
        if existing.Some? then Ok((db, Replied(existing.value, "", false))) else AddWallet(db, req, env)
  }

  /** The tables change only when the transaction commits. */
  function Finish(s: State, tx: Result<(Db, Reply), Error>, env: Env): (State, Reply) {
    if tx.Err? then (s, Refused(tx.error))
    else if Commit in env.faults then (s, Refused(PhaseFailed(Commit)))
    else (s.(db := tx.value.0), tx.value.1)
  }

  function Create(s: State, req: Request, env: Env): (State, Reply) {
    if UserResolution in env.faults then (s, Refused(PhaseFailed(UserResolution)))
    else
      var Lookup(cache, found) := FindExisting(s, req.userId, req.network, env);
      if found.Err? then (s.(cache := cache), Refused(found.error))
      else Finish(s.(cache := cache), InTransaction(s.db, req, env, found.value), env)
  }

  // ----- Rotation -----

  /** The successor row and the link to it, written together. */
  function Linked(wallets: seq<Wallet>, id: nat, publicKey: string): seq<Wallet>
    requires id < |wallets|
  {
    var w := wallets[id];
    wallets[id := w.(status := Rotating, successorId := Some(|wallets|))]
    + [Wallet(w.userId, w.network, publicKey, Active, w.secretVersion + 1, Some(id), None)]
  }

  function Rotate(s: State, id: nat, env: Env): (State, Reply) {
    if id >= |s.db.wallets| then (s, Refused(WalletNotFound))
    else if s.db.wallets[id].status !in {Active, Rotating} then (s, Refused(NotRotatable))
    else if s.db.wallets[id].successorId.Some? then (s, Refused(HasSuccessor))
    else if KeyGeneration in env.faults then (s, Refused(PhaseFailed(KeyGeneration)))
    else if WalletPersist in env.faults then (s, Refused(PhaseFailed(WalletPersist)))
    else if Commit in env.faults then (s, Refused(PhaseFailed(Commit)))
    else (s.(db := s.db.(wallets := Linked(s.db.wallets, id, env.publicKey))), RotatedTo(|s.db.wallets|))
  }

  class WalletService {
    var wallets: seq<Wallet>
    var records: map<string, Record>
    const cache: CacheService<Snapshot>

    function Model(): State
      reads this, cache
    {
      State(Db(wallets, records), cache.entries)
    }

    constructor (cache: CacheService<Snapshot>)
      ensures wallets == [] && records == map[] && this.cache == cache
    {
      wallets, records := [], map[];
      this.cache := cache;
    }

    /** `findFirst`: scan for the rows of the owner, of which the database may return any. */
    method FindExistingWallet(userId: string, network: Network, env: Env)
      returns (found: Result<Option<Snapshot>, Error>)
      modifies cache
      ensures Lookup(cache.entries, found) == FindExisting(old(Model()), userId, network, env)
    {
      var hit := cache.Lookup(CacheKey(userId, network), env.now);
      if hit.Some? {
        return Ok(hit);
      }
      if WalletLookup in env.faults {
        return Err(PhaseFailed(WalletLookup));
      }
      var ids: seq<nat> := [];
      for i := 0 to |wallets|
        invariant ids == Owned(wallets[..i], userId, network)
      {
        assert wallets[..i + 1][..i] == wallets[..i];
        if wallets[i].userId == userId && wallets[i].network == network {
          ids := ids + [i];
        }
      }
      assert wallets[..|wallets|] == wallets;
      if ids == [] {
        return Ok(None);
      }
      var id := ids[if env.pick < |ids| then env.pick else 0];
      cache.Set(CacheKey(userId, network), Snapshot(id, wallets[id]), env.now, CACHE_TTL_MS);
      return Ok(Some(Snapshot(id, wallets[id])));
    }

    method CreateNewWallet(txWallets: seq<Wallet>, txRecords: map<string, Record>, req: Request, env: Env)
      returns (r: Result<(Db, Reply), Error>)
      ensures r == AddWallet(Db(txWallets, txRecords), req, env)
    {
      if KeyGeneration in env.faults {
        return Err(PhaseFailed(KeyGeneration));
      }
      if WalletPersist in env.faults {
        return Err(PhaseFailed(WalletPersist));
      }
      var id := |txWallets|;
      var row := Wallet(req.userId, req.network, env.publicKey, Provisioning, 1, None, None);
      var rows := txWallets + [row];
      if WalletActivation in env.faults {
        return Err(PhaseFailed(WalletActivation));
      }
      rows := rows[id := row.(status := Active)];
      if FinalActivation in env.faults {
        return Err(PhaseFailed(FinalActivation));
      }
      var snapshot := Snapshot(id, rows[id]);
      var stored := txRecords;
      if Keyed(req) && IdempotencyStore !in env.faults {
        stored := txRecords[req.idempotencyKey.value :=
          Record(req.userId, req.network, snapshot, true, env.now + IDEMPOTENCY_TTL_MS)];
      }
      assert rows == txWallets + [row.(status := Active)];
      return Ok((Db(rows, stored), Replied(snapshot, env.privateKey, true)));
    }

    /** The body of the transaction; its locals are the transaction's view of the tables. */
    method RunTransaction(req: Request, env: Env, existing: Option<Snapshot>) returns (r: Result<(Db, Reply), Error>)
      ensures r == InTransaction(Db(wallets, records), req, env, existing)
    {
      var txRecords := records;
      if Keyed(req) {
        if IdempotencyCheck in env.faults {
          return Err(PhaseFailed(IdempotencyCheck));
        }
        var key := req.idempotencyKey.value;
        if key in txRecords {
          var record := txRecords[key];
          if record.expiresAt < env.now {
            txRecords := txRecords - {key};
          } else if record.userId != req.userId || record.network != req.network {
            return Err(KeyConflict);
          } else {
            return Ok((Db(wallets, records), Replied(record.snapshot, "", record.isNewWallet)));
          }
        }
      }
      if existing.Some? {
        return Ok((Db(wallets, txRecords), Replied(existing.value, "", false)));
      }
      r := CreateNewWallet(wallets, txRecords, req, env);
    }

    /** The tables change only on commit, so a refused call leaves them as they were. */
    method CreateWallet(req: Request, env: Env) returns (reply: Reply)
      modifies this, cache
      ensures (Model(), reply) == Create(old(Model()), req, env)
      ensures reply.Refused? ==> wallets == old(wallets) && records == old(records)
    {
      if UserResolution in env.faults {
        return Refused(PhaseFailed(UserResolution));
      }
      var existing := FindExistingWallet(req.userId, req.network, env);
      if existing.Err? {
        return Refused(existing.error);
      }
      var r := RunTransaction(req, env, existing.value);
      if r.Err? {
        return Refused(r.error);
      }
      if Commit in env.faults {
        return Refused(PhaseFailed(Commit));
      }
      var (db, result) := r.value;
      wallets, records := db.wallets, db.records;
      return result;
    }

    method RotateKey(id: nat, env: Env) returns (reply: Reply)
      modifies this
      ensures (Model(), reply) == Rotate(old(Model()), id, env)
    {
      if id >= |wallets| {
        return Refused(WalletNotFound);
      }
      var predecessor := wallets[id];
      if predecessor.status !in {Active, Rotating} {
        return Refused(NotRotatable);
      }
      if predecessor.successorId.Some? {
        return Refused(HasSuccessor);
      }
      if KeyGeneration in env.faults {
        return Refused(PhaseFailed(KeyGeneration));
      }
      if WalletPersist in env.faults {
        return Refused(PhaseFailed(WalletPersist));
      }
      var successorId := |wallets|;
      var txWallets := wallets + [Wallet(predecessor.userId, predecessor.network, env.publicKey, Active,
                                         predecessor.secretVersion + 1, Some(id), None)];
      txWallets := txWallets[id := predecessor.(status := Rotating, successorId := Some(successorId))];
      if Commit in env.faults {
        return Refused(PhaseFailed(Commit));
      }
      assert txWallets == Linked(wallets, id, env.publicKey);
      wallets := txWallets;
      return RotatedTo(successorId);
    }
  }

  // ----- Chains -----

  /** The i-th wallet of a chain: its version is its position, and its links lead to its neighbours. */
  ghost predicate LinkOk(wallets: seq<Wallet>, ids: seq<nat>, i: nat)
    requires i < |ids|
  {
    && ids[i] < |wallets|
    && var w := wallets[ids[i]];
    && w.secretVersion == i + 1
    && w.rotatedFromId == (if i == 0 then None else Some(ids[i - 1]))
    && w.successorId == (if i == |ids| - 1 then None else Some(ids[i + 1]))
  }

  ghost predicate IsChain(wallets: seq<Wallet>, ids: seq<nat>) {
    forall i :: 0 <= i < |ids| ==> LinkOk(wallets, ids, i)
  }

  lemma {:induction false} OwnedComplete(wallets: seq<Wallet>, userId: string, network: Network, id: nat)
    requires id < |wallets| && Owns(wallets[id], userId, network)
    ensures id in Owned(wallets, userId, network)
  {
    var n := |wallets| - 1;
    if id < n {
      OwnedComplete(wallets[..n], userId, network, id);
    }
  }

  ghost predicate Ascends(ids: seq<nat>) {
    forall i, j :: 0 <= i < j < |ids| ==> ids[i] < ids[j]
  }

  lemma {:induction false} OwnedAscends(wallets: seq<Wallet>, userId: string, network: Network)
    ensures Ascends(Owned(wallets, userId, network))
  {
    if wallets != [] {
      var n := |wallets| - 1;
      OwnedAscends(wallets[..n], userId, network);
      var front := Owned(wallets[..n], userId, network);
      assert Ascends(front + [n]) by {
        assert forall i :: 0 <= i < |front| ==> front[i] < n;
      }
    }
  }

  lemma {:induction false} OwnedUpdate(wallets: seq<Wallet>, id: nat, w: Wallet, userId: string, network: Network)
    requires id < |wallets| && w.userId == wallets[id].userId && w.network == wallets[id].network
    ensures Owned(wallets[id := w], userId, network) == Owned(wallets, userId, network)
  {
    var n := |wallets| - 1;
    if id < n {
      OwnedUpdate(wallets[..n], id, w, userId, network);
      assert wallets[id := w][..n] == wallets[..n][id := w];
    } else {
      assert wallets[id := w][..n] == wallets[..n];
    }
  }

  lemma OwnedAppend(wallets: seq<Wallet>, w: Wallet, userId: string, network: Network)
    ensures Owned(wallets + [w], userId, network)
      == Owned(wallets, userId, network) + if Owns(w, userId, network) then [|wallets|] else []
  {
    assert (wallets + [w])[..|wallets|] == wallets;
  }

  lemma ChainGrows(wallets: seq<Wallet>, ids: seq<nat>, id: nat, publicKey: string)
    requires IsChain(wallets, ids) && Ascends(ids) && id < |wallets| && ids != [] && ids[|ids| - 1] == id
    ensures IsChain(Linked(wallets, id, publicKey), ids + [|wallets|])
  {
    var wallets', ids' := Linked(wallets, id, publicKey), ids + [|wallets|];
    assert LinkOk(wallets, ids, |ids| - 1);
    forall i | 0 <= i < |ids'|
      ensures LinkOk(wallets', ids', i)
    {
      if i < |ids| {
        assert LinkOk(wallets, ids, i);
      }
    }
  }

  lemma ChainElsewhere(wallets: seq<Wallet>, ids: seq<nat>, id: nat, publicKey: string)
    requires IsChain(wallets, ids) && id < |wallets| && id !in ids
    ensures IsChain(Linked(wallets, id, publicKey), ids)
  {
    var wallets' := Linked(wallets, id, publicKey);
    forall i | 0 <= i < |ids|
      ensures LinkOk(wallets', ids, i)
    {
      assert LinkOk(wallets, ids, i);
    }
  }

  /** Only the last wallet of a chain has no successor. */
  lemma EndOfChain(wallets: seq<Wallet>, ids: seq<nat>, id: nat)
    requires IsChain(wallets, ids) && id < |wallets| && id in ids
    ensures wallets[id].successorId == None <==> id == ids[|ids| - 1]
  {
    var i :| 0 <= i < |ids| && ids[i] == id;
    assert LinkOk(wallets, ids, i);
    assert LinkOk(wallets, ids, |ids| - 1);
  }

  lemma OwnedLinked(wallets: seq<Wallet>, id: nat, publicKey: string, userId: string, network: Network)
    requires id < |wallets|
    ensures Owned(Linked(wallets, id, publicKey), userId, network)
      == Owned(wallets, userId, network) + if Owns(wallets[id], userId, network) then [|wallets|] else []
  {
    var w := wallets[id].(status := Rotating, successorId := Some(|wallets|));
    OwnedUpdate(wallets, id, w, userId, network);
    var successor := Wallet(w.userId, w.network, publicKey, Active, w.secretVersion + 1, Some(id), None);
    OwnedAppend(wallets[id := w], successor, userId, network);
  }

  lemma OwnerChain(wallets: seq<Wallet>, u: string, n: Network, id: nat)
    requires IsChain(wallets, Owned(wallets, u, n))
    ensures Ascends(Owned(wallets, u, n))
    ensures var ids := Owned(wallets, u, n);
      id < |wallets| && Owns(wallets[id], u, n) ==>
        id in ids && (wallets[id].successorId == None <==> id == ids[|ids| - 1])
  {
    OwnedAscends(wallets, u, n);
    if id < |wallets| && Owns(wallets[id], u, n) {
      OwnedComplete(wallets, u, n, id);
      EndOfChain(wallets, Owned(wallets, u, n), id);
    }
  }

  /** Rotating the end of a chain extends it by one; other owners' chains are untouched. */
  lemma LinkExtends(wallets: seq<Wallet>, id: nat, publicKey: string, userId: string, network: Network)
    requires IsChain(wallets, Owned(wallets, userId, network))
    requires id < |wallets| && wallets[id].successorId == None
    ensures var wallets' := Linked(wallets, id, publicKey);
      IsChain(wallets', Owned(wallets', userId, network))
  {
    var ids := Owned(wallets, userId, network);
    OwnedLinked(wallets, id, publicKey, userId, network);
    if Owns(wallets[id], userId, network) {
      OwnedComplete(wallets, userId, network, id);
      OwnedAscends(wallets, userId, network);
      EndOfChain(wallets, ids, id);
      ChainGrows(wallets, ids, id, publicKey);
    } else {
      ChainElsewhere(wallets, ids, id, publicKey);
      assert ids + [] == ids;
    }
  }

  lemma AppendFirst(wallets: seq<Wallet>, w: Wallet, userId: string, network: Network)
    requires IsChain(wallets, Owned(wallets, userId, network))
    requires w.secretVersion == 1 && w.rotatedFromId == None && w.successorId == None
    requires Owns(w, userId, network) ==> Owned(wallets, userId, network) == []
    ensures IsChain(wallets + [w], Owned(wallets + [w], userId, network))
  {
    OwnedAppend(wallets, w, userId, network);
    var ids, ids' := Owned(wallets, userId, network), Owned(wallets + [w], userId, network);
    forall i | 0 <= i < |ids'|
      ensures LinkOk(wallets + [w], ids', i)
    {
      if !Owns(w, userId, network) {
        assert LinkOk(wallets, ids, i);
      }
    }
  }

  // ----- The invariant of one owner -----

  lemma CacheKeyInjective(u: string, n: Network, v: string, m: Network)
    ensures CacheKey(u, n) == CacheKey(v, m) ==> u == v && n == m
  {
    var a, b := CacheKey(u, n), CacheKey(v, m);
    if a == b {
      assert a[12..|a| - 8] == u && b[12..|b| - 8] == v;
      assert a[|a| - 7..] == NetworkName(n) && b[|b| - 7..] == NetworkName(m);
      assert NetworkName(n)[0] == NetworkName(m)[0];
    }
  }

  /** A record about an owner is about one of the owner's wallets, and was stored by the call that created it. */
  ghost predicate RecordsOk(records: map<string, Record>, ids: seq<nat>, u: string, n: Network) {
    forall k :: k in records && records[k].userId == u && records[k].network == n ==>
      records[k].snapshot.id in ids && records[k].isNewWallet
  }

  ghost predicate CacheOk(cache: Entries<Snapshot>, ids: seq<nat>, u: string, n: Network) {
    CacheKey(u, n) in cache ==> cache[CacheKey(u, n)].value.id in ids
  }

  ghost predicate DbOk(db: Db, u: string, n: Network) {
    && IsChain(db.wallets, Owned(db.wallets, u, n))
    && RecordsOk(db.records, Owned(db.wallets, u, n), u, n)
    && (forall i :: 0 <= i < |db.wallets| ==> db.wallets[i].status != Provisioning)
  }

  ghost predicate Coherent(s: State, u: string, n: Network) {
    DbOk(s.db, u, n) && CacheOk(s.cache, Owned(s.db.wallets, u, n), u, n)
  }

  predicate For(req: Request, u: string, n: Network) {
    req.userId == u && req.network == n
  }

  lemma FindUnderFinds(s: State, key: string, u: string, n: Network, env: Env)
    requires key in s.cache ==> s.cache[key].value.id in Owned(s.db.wallets, u, n)
    ensures var Lookup(cache, found) := FindUnder(s, key, u, n, env);
      && (key in cache ==> cache[key].value.id in Owned(s.db.wallets, u, n))
      && (found.Ok? ==> FoundOf(found.value, Owned(s.db.wallets, u, n)))
  {
  }

  lemma FindUnderKeeps(s: State, key: string, u: string, n: Network, env: Env, other: string)
    requires other != key
    ensures var cache := FindUnder(s, key, u, n, env).cache;
      other in cache ==> other in s.cache && cache[other] == s.cache[other]
  {
  }

  /** A lookup finds one of the owner's wallets, if there is any. */
  ghost predicate FoundOf(found: Option<Snapshot>, ids: seq<nat>) {
    && (found.Some? <==> ids != [])
    && (found.Some? ==> found.value.id in ids)
  }

  lemma LookupFinds(s: State, req: Request, env: Env, u: string, n: Network)
    requires Coherent(s, u, n)
    ensures var Lookup(cache, found) := FindExisting(s, req.userId, req.network, env);
      && CacheOk(cache, Owned(s.db.wallets, u, n), u, n)
      && (For(req, u, n) && found.Ok? ==> FoundOf(found.value, Owned(s.db.wallets, u, n)))
  {
    var key := CacheKey(req.userId, req.network);
    if For(req, u, n) {
      FindUnderFinds(s, key, u, n, env);
    } else {
      CacheKeyInjective(u, n, req.userId, req.network);
      FindUnderKeeps(s, key, req.userId, req.network, env, CacheKey(u, n));
    }
  }

  function FirstWallet(req: Request, env: Env): Wallet {
    Wallet(req.userId, req.network, env.publicKey, Active, 1, None, None)
  }

  lemma AddShape(db: Db, req: Request, env: Env)
    requires AddWallet(db, req, env).Ok?
    ensures var (db', reply) := AddWallet(db, req, env).value;
      && db'.wallets == db.wallets + [FirstWallet(req, env)]
      && reply == Replied(Snapshot(|db.wallets|, FirstWallet(req, env)), env.privateKey, true)
  {
  }

  lemma FirstOwned(wallets: seq<Wallet>, req: Request, env: Env, u: string, n: Network)
    requires For(req, u, n) ==> Owned(wallets, u, n) == []
    ensures Owned(wallets + [FirstWallet(req, env)], u, n)
      == if For(req, u, n) then [|wallets|] else Owned(wallets, u, n)
  {
    OwnedAppend(wallets, FirstWallet(req, env), u, n);
    var ids := Owned(wallets, u, n);
    if For(req, u, n) {
      assert ids + [|wallets|] == [|wallets|];
    } else {
      assert ids + [] == ids;
    }
  }

  lemma RecordsMonotone(records: map<string, Record>, ids: seq<nat>, ids': seq<nat>, u: string, n: Network)
    requires RecordsOk(records, ids, u, n) && ids <= ids'
    ensures RecordsOk(records, ids', u, n)
  {
    forall k | k in records && records[k].userId == u && records[k].network == n
      ensures records[k].snapshot.id in ids'
    {
      var i :| 0 <= i < |ids| && ids[i] == records[k].snapshot.id;
      assert ids'[i] == ids[i];
    }
  }

  lemma AddKeeps(db: Db, req: Request, env: Env, u: string, n: Network)
    requires DbOk(db, u, n) && AddWallet(db, req, env).Ok?
    requires For(req, u, n) ==> Owned(db.wallets, u, n) == []
    ensures DbOk(AddWallet(db, req, env).value.0, u, n)
  {
    var db' := AddWallet(db, req, env).value.0;
    AddShape(db, req, env);
    AppendFirst(db.wallets, FirstWallet(req, env), u, n);
    FirstOwned(db.wallets, req, env, u, n);
    var ids, ids' := Owned(db.wallets, u, n), Owned(db'.wallets, u, n);
    RecordsMonotone(db.records, ids, ids', u, n);
    assert RecordsOk(db'.records, ids', u, n);
  }

  /** The three ways a transaction succeeds: a replay, the existing wallet, or a new one. */
  lemma TransactionCases(db: Db, req: Request, env: Env, existing: Option<Snapshot>) returns (lapsed: Db)
    requires InTransaction(db, req, env, existing).Ok?
    ensures lapsed.wallets == db.wallets && lapsed.records.Keys <= db.records.Keys
    ensures forall k :: k in lapsed.records ==> lapsed.records[k] == db.records[k]
    ensures Keyed(req) && !CheckKey(db.records, req, env.now).Replay? ==> req.idempotencyKey.value !in lapsed.records
    ensures var check := CheckKey(db.records, req, env.now);
      var out := InTransaction(db, req, env, existing);
      if check.Replay? then out == Ok((db, Replied(check.record.snapshot, "", check.record.isNewWallet)))
      else if existing.Some? then out == Ok((lapsed, Replied(existing.value, "", false)))
      else out == AddWallet(lapsed, req, env)
  {
    lapsed := if CheckKey(db.records, req, env.now) == Lapsed
              then db.(records := db.records - {req.idempotencyKey.value}) else db;
  }

  /** What one transaction does for the owner (u, n): it either adds the first wallet or answers with one there is. */
  lemma TransactionKeeps(db: Db, req: Request, env: Env, existing: Option<Snapshot>, u: string, n: Network)
    requires DbOk(db, u, n) && InTransaction(db, req, env, existing).Ok?
    requires For(req, u, n) ==> FoundOf(existing, Owned(db.wallets, u, n))
    ensures var (db', reply) := InTransaction(db, req, env, existing).value;
      var ids, ids' := Owned(db.wallets, u, n), Owned(db'.wallets, u, n);
      && DbOk(db', u, n)
      && ids <= ids'
      && (!For(req, u, n) ==> ids' == ids)
      && (For(req, u, n) ==>
            && reply.Replied? && reply.snapshot.id in ids'
            && (ids == [] ==> reply.isNewWallet && reply.privateKey == env.privateKey && ids' == [|db.wallets|])
            && (ids != [] ==> reply.privateKey == "" && ids' == ids))
  {
    var lapsed := TransactionCases(db, req, env, existing);
    var check, ids := CheckKey(db.records, req, env.now), Owned(db.wallets, u, n);
    assert DbOk(lapsed, u, n);
    if check.Replay? {
      assert db.records[req.idempotencyKey.value] == check.record;
      assert For(req, u, n) ==> check.record.snapshot.id in ids && check.record.isNewWallet;
    } else if existing == None {
      AddShape(lapsed, req, env);
      FirstOwned(db.wallets, req, env, u, n);
      AddKeeps(lapsed, req, env, u, n);
    }
  }

  /** A call either is refused, and then no table has changed, or commits its transaction. */
  lemma CreateCommits(s: State, req: Request, env: Env)
    ensures var (s', reply) := Create(s, req, env);
      var Lookup(cache, found) := FindExisting(s, req.userId, req.network, env);
      || (reply.Refused? && s'.db == s.db && s'.cache in {s.cache, cache})
      || (found.Ok? && var tx := InTransaction(s.db, req, env, found.value);
          tx.Ok? && tx.value.1.Replied? && (s', reply) == (State(tx.value.0, cache), tx.value.1))
  {
    var found := FindExisting(s, req.userId, req.network, env).result;
    if found.Ok? {
      RepliedTo(s.db, req, env, found.value);
    }
  }

  lemma RepliedTo(db: Db, req: Request, env: Env, existing: Option<Snapshot>)
    ensures var tx := InTransaction(db, req, env, existing);
      tx.Ok? ==> tx.value.1.Replied?
  {
  }

  lemma CreateKeeps(s: State, req: Request, env: Env, u: string, n: Network)
    requires Coherent(s, u, n)
    ensures var (s', reply) := Create(s, req, env);
      var ids, ids' := Owned(s.db.wallets, u, n), Owned(s'.db.wallets, u, n);
      && Coherent(s', u, n)
      && (reply.Refused? ==> s'.db == s.db)
      && (!(For(req, u, n) && reply.Replied?) ==> ids' == ids)
      && (For(req, u, n) && reply.Replied? ==>
            && reply.snapshot.id in ids'
            && (ids == [] ==> reply.isNewWallet && reply.privateKey == env.privateKey && ids' == [|s.db.wallets|])
            && (ids != [] ==> reply.privateKey == "" && ids' == ids))
  {
    LookupFinds(s, req, env, u, n);
    CreateCommits(s, req, env);
    var Lookup(cache, found) := FindExisting(s, req.userId, req.network, env);
    if Create(s, req, env).1.Replied? {
      TransactionKeeps(s.db, req, env, found.value, u, n);
    }
  }

  lemma RotateKeeps(s: State, id: nat, env: Env, u: string, n: Network)
    requires Coherent(s, u, n) && Rotate(s, id, env).1.RotatedTo?
    ensures id < |s.db.wallets|
    ensures var ids := Owned(s.db.wallets, u, n);
      Owned(Rotate(s, id, env).0.db.wallets, u, n)
        == ids + if Owns(s.db.wallets[id], u, n) then [|s.db.wallets|] else []
    ensures Owns(s.db.wallets[id], u, n) ==> Owned(s.db.wallets, u, n) != []
    ensures Coherent(Rotate(s, id, env).0, u, n)
  {
    var wallets' := Linked(s.db.wallets, id, env.publicKey);
    OwnedLinked(s.db.wallets, id, env.publicKey, u, n);
    LinkExtends(s.db.wallets, id, env.publicKey, u, n);
    if Owns(s.db.wallets[id], u, n) {
      OwnedComplete(s.db.wallets, u, n, id);
    }
    var ids, ids' := Owned(s.db.wallets, u, n), Owned(wallets', u, n);
    assert ids <= ids';
    RecordsMonotone(s.db.records, ids, ids', u, n);
    assert DbOk(Db(wallets', s.db.records), u, n);
    assert CacheOk(s.cache, ids', u, n);
    assert Rotate(s, id, env).0 == State(Db(wallets', s.db.records), s.cache);
  }

  // ----- Runs -----

  /** `DoClear` is the clearing of the shared cache by the balance index. */
  datatype Op = DoCreate(req: Request, env: Env) | DoRotate(id: nat, env: Env) | DoClear(env: Env)

  function Step(s: State, op: Op): (State, Reply) {
    match op
    case DoCreate(req, env) => Create(s, req, env)
    case DoRotate(id, env) => Rotate(s, id, env)
    case DoClear(_) => (s.(cache := map[]), Cleared)
  }

  /** The state after a run from empty tables. */
  function Run(ops: seq<Op>): State {
    if ops == [] then State(Db([], map[]), map[]) else Step(Run(ops[..|ops| - 1]), ops[|ops| - 1]).0
  }

  lemma {:induction false} RunCoherent(ops: seq<Op>, u: string, n: Network)
    ensures Coherent(Run(ops), u, n)
  {
    if ops != [] {
      var k := |ops| - 1;
      RunCoherent(ops[..k], u, n);
      var s := Run(ops[..k]);
      match ops[k]
      case DoCreate(req, env) => CreateKeeps(s, req, env, u, n);
      case DoRotate(id, env) =>
        if Rotate(s, id, env).1.RotatedTo? {
          RotateKeeps(s, id, env, u, n);
        }
      case DoClear(_) =>
    }
  }

  // ----- The history of one owner -----

  /** Per step: the owner's ids before and after it, and whether it served the owner or rotated the owner's wallet. */
  datatype Move = Move(before: seq<nat>, after: seq<nat>, served: bool, rotated: bool, reply: Reply)

  /** A step leaves the owner's ids alone, adds the first in answer to a call, or extends them by a rotation. */
  ghost predicate MoveOk(m: Move) {
    && m.before <= m.after
    && (!m.served && !m.rotated ==> m.after == m.before)
    && (m.rotated ==> m.before != [])
    && (m.served ==> m.reply.Replied? && m.reply.snapshot.id in m.after)
    && (m.served && m.before == [] ==> m.reply.isNewWallet && |m.after| == 1)
    && (m.served && m.before != [] ==> m.reply.privateKey == "" && m.after == m.before)
  }

  predicate ServesOwner(op: Op, reply: Reply, u: string, n: Network) {
    op.DoCreate? && For(op.req, u, n) && reply.Replied?
  }

  predicate RotatesOwner(s: State, op: Op, reply: Reply, u: string, n: Network) {
    op.DoRotate? && reply.RotatedTo? && op.id < |s.db.wallets| && Owns(s.db.wallets[op.id], u, n)
  }

  function MoveOf(s: State, op: Op, u: string, n: Network): Move {
    var (s', reply) := Step(s, op);
    Move(Owned(s.db.wallets, u, n), Owned(s'.db.wallets, u, n),
         ServesOwner(op, reply, u, n), RotatesOwner(s, op, reply, u, n), reply)
  }

  lemma StepMoves(s: State, op: Op, u: string, n: Network)
    requires Coherent(s, u, n)
    ensures MoveOk(MoveOf(s, op, u, n))
    ensures var m := MoveOf(s, op, u, n);
      m.served && m.before == [] ==> m.reply.privateKey == op.env.privateKey
  {
    match op
    case DoCreate(req, env) => CreateKeeps(s, req, env, u, n);
    case DoRotate(id, env) =>
      if Rotate(s, id, env).1.RotatedTo? {
        RotateKeeps(s, id, env, u, n);
      }
    case DoClear(_) =>
  }

  function Moves(ops: seq<Op>, u: string, n: Network): (ms: seq<Move>)
    ensures |ms| == |ops|
  {
    seq(|ops|, k requires 0 <= k < |ops| => MoveOf(Run(ops[..k]), ops[k], u, n))
  }

  /** The owner's ids before the k-th step, which are those after the step before it. */
  function EarlierIds(ms: seq<Move>, k: nat): seq<nat>
    requires k <= |ms|
  {
    if k == 0 then [] else ms[k - 1].after
  }

  /** The steps fit together, from an owner without wallets. */
  ghost predicate History(ms: seq<Move>) {
    && (forall k :: 0 <= k < |ms| ==> MoveOk(ms[k]))
    && (forall k {:trigger EarlierIds(ms, k)} :: 0 <= k < |ms| ==> ms[k].before == EarlierIds(ms, k))
  }

  /** One step of a run, seen by an owner, starts where the step before it ended. */
  lemma MoveFollows(ops: seq<Op>, k: nat, u: string, n: Network)
    requires k < |ops|
    ensures MoveOk(MoveOf(Run(ops[..k]), ops[k], u, n))
    ensures MoveOf(Run(ops[..k]), ops[k], u, n).after == Owned(Run(ops[..k + 1]).db.wallets, u, n)
  {
    RunCoherent(ops[..k], u, n);
    StepMoves(Run(ops[..k]), ops[k], u, n);
    RunSnoc(ops, k);
  }

  lemma RunSnoc(ops: seq<Op>, k: nat)
    requires k < |ops|
    ensures Run(ops[..k + 1]) == Step(Run(ops[..k]), ops[k]).0
  {
    assert ops[..k + 1][..k] == ops[..k];
  }

  lemma MovesAreHistory(ops: seq<Op>, u: string, n: Network)
    ensures History(Moves(ops, u, n))
    ensures EarlierIds(Moves(ops, u, n), |ops|) == Owned(Run(ops).db.wallets, u, n)
  {
    var ms := Moves(ops, u, n);
    forall k | 0 <= k < |ops|
      ensures MoveOk(ms[k]) && ms[k].after == Owned(Run(ops[..k + 1]).db.wallets, u, n)
    {
      MoveFollows(ops, k, u, n);
    }
    forall k | 0 <= k < |ops|
      ensures ms[k].before == EarlierIds(ms, k)
    {
      assert ms[k].before == Owned(Run(ops[..k]).db.wallets, u, n);
    }
    assert ops[..|ops|] == ops;
  }

  lemma {:induction false} IdsGrow(ms: seq<Move>, i: nat, j: nat)
    requires History(ms) && i <= j < |ms|
    ensures ms[i].after <= ms[j].after
  {
    if i < j {
      IdsGrow(ms, i, j - 1);
      assert MoveOk(ms[j]) && ms[j].before == EarlierIds(ms, j);
    }
  }

  /** An owner has a wallet exactly when a call for that owner has been served. */
  lemma {:induction false} OwnsWhenServed(ms: seq<Move>, k: nat)
    requires History(ms) && k < |ms|
    ensures ms[k].before == [] <==> forall i :: 0 <= i < k ==> !ms[i].served
  {
    assert ms[k].before == EarlierIds(ms, k);
    if k > 0 {
      OwnsWhenServed(ms, k - 1);
      var m := ms[k - 1];
      assert MoveOk(m);
      if m.before == [] {
        assert m.after == [] <==> !m.served;
      } else {
        assert m.after[0] == m.before[0];
      }
    }
  }

  lemma {:induction false} SingleUnlessRotated(ms: seq<Move>, k: nat)
    requires History(ms) && k < |ms| && forall i :: 0 <= i <= k ==> !ms[i].rotated
    ensures |ms[k].after| <= 1
  {
    var m := ms[k];
    assert MoveOk(m) && !m.rotated;
    assert m.after == m.before || |m.after| == 1;
    assert m.before == EarlierIds(ms, k);
    if k > 0 {
      SingleUnlessRotated(ms, k - 1);
    }
  }

  lemma StillOwned(ms: seq<Move>, i: nat, j: nat)
    requires History(ms) && i <= j < |ms| && ms[i].served
    ensures ms[i].reply.Replied? && ms[i].reply.snapshot.id in ms[j].after
  {
    IdsGrow(ms, i, j);
    assert MoveOk(ms[i]);
    var x :| 0 <= x < |ms[i].after| && ms[i].after[x] == ms[i].reply.snapshot.id;
    assert ms[j].after[x] == ms[i].after[x];
  }

  lemma FirstServed(ms: seq<Move>, j: nat)
    requires History(ms) && j < |ms| && ms[j].served
    ensures ms[j].reply.Replied?
    ensures (forall i :: 0 <= i < j ==> !ms[i].served) ==> ms[j].before == [] && ms[j].reply.isNewWallet
    ensures (exists i :: 0 <= i < j && ms[i].served) ==> ms[j].reply.privateKey == ""
  {
    OwnsWhenServed(ms, j);
    assert MoveOk(ms[j]);
  }

  lemma StaysOwned(ms: seq<Move>, j: nat, ids: seq<nat>)
    requires History(ms) && j < |ms| && ms[j].served && EarlierIds(ms, |ms|) == ids
    ensures ms[j].reply.Replied? && ms[j].reply.snapshot.id in ids
  {
    StillOwned(ms, j, |ms| - 1);
  }

  lemma OneWallet(ms: seq<Move>, i: nat, j: nat)
    requires History(ms) && i <= j < |ms| && ms[i].served && ms[j].served
    requires forall k :: 0 <= k <= j ==> !ms[k].rotated
    ensures ms[i].reply.Replied? && ms[j].reply.Replied?
    ensures ms[i].reply.snapshot.id == ms[j].reply.snapshot.id
  {
    SingleUnlessRotated(ms, j);
    StillOwned(ms, i, j);
    StillOwned(ms, j, j);
  }

  // ----- Theorems over every serial run -----

  /** The reply to the i-th step. */
  function ReplyAt(ops: seq<Op>, i: nat): Reply
    requires i < |ops|
  {
    Step(Run(ops[..i]), ops[i]).1
  }

  /** The i-th step is a successful creation call for the owner. */
  predicate Serves(ops: seq<Op>, i: nat, u: string, n: Network)
    requires i < |ops|
  {
    ServesOwner(ops[i], ReplyAt(ops, i), u, n)
  }

  /** The i-th step rotates a wallet of the owner. */
  predicate Rotates(ops: seq<Op>, i: nat, u: string, n: Network)
    requires i < |ops|
  {
    RotatesOwner(Run(ops[..i]), ops[i], ReplyAt(ops, i), u, n)
  }

  lemma MoveSays(ops: seq<Op>, i: nat, u: string, n: Network)
    requires i < |ops|
    ensures var m := Moves(ops, u, n)[i];
      && m.served == Serves(ops, i, u, n) && m.rotated == Rotates(ops, i, u, n) && m.reply == ReplyAt(ops, i)
      && (m.served && m.before == [] ==> m.reply.Replied? && m.reply.privateKey == ops[i].env.privateKey)
  {
    RunCoherent(ops[..i], u, n);
    StepMoves(Run(ops[..i]), ops[i], u, n);
  }

  /**
   * In every run of creations and rotations, with any failures: an owner's wallets are one finite chain whose links
   * are mutual inverses and whose versions are the positions, exactly its last wallet has no successor, and no
   * wallet is left PROVISIONING.
   */
  lemma WalletsFormChains(ops: seq<Op>, u: string, n: Network, id: nat)
    ensures var wallets := Run(ops).db.wallets;
      var ids := Owned(wallets, u, n);
      && IsChain(wallets, ids) && Ascends(ids)
      && (id < |wallets| && Owns(wallets[id], u, n) ==>
            && id in ids && wallets[id].status != Provisioning
            && (wallets[id].successorId == None <==> id == ids[|ids| - 1]))
  {
    RunCoherent(ops, u, n);
    OwnerChain(Run(ops).db.wallets, u, n, id);
  }

  /**
   * Exactly the first successful call for an owner returns a private key, and it reports a new wallet; every later
   * one returns a wallet of the owner's chain without a key.
   */
  lemma PrivateKeyOnlyOnce(ops: seq<Op>, j: nat, u: string, n: Network)
    requires j < |ops| && Serves(ops, j, u, n)
    ensures ReplyAt(ops, j).snapshot.id in Owned(Run(ops).db.wallets, u, n)
    ensures (forall i :: 0 <= i < j ==> !Serves(ops, i, u, n)) ==>
      ReplyAt(ops, j).isNewWallet && ReplyAt(ops, j).privateKey == ops[j].env.privateKey
    ensures (exists i :: 0 <= i < j && Serves(ops, i, u, n)) ==> ReplyAt(ops, j).privateKey == ""
  {
    var ms := Moves(ops, u, n);
    MovesAreHistory(ops, u, n);
    forall i | 0 <= i <= j
      ensures ms[i].served == Serves(ops, i, u, n)
    {
      MoveSays(ops, i, u, n);
    }
    MoveSays(ops, j, u, n);
    FirstServed(ms, j);
    StaysOwned(ms, j, Owned(Run(ops).db.wallets, u, n));
  }

  /** As long as the owner's wallet is not rotated, all successful calls return the same wallet. */
  lemma SameWallet(ops: seq<Op>, i: nat, j: nat, u: string, n: Network)
    requires i < j < |ops| && Serves(ops, i, u, n) && Serves(ops, j, u, n)
    requires forall k :: 0 <= k <= j ==> !Rotates(ops, k, u, n)
    ensures ReplyAt(ops, i).snapshot.id == ReplyAt(ops, j).snapshot.id
  {
    var ms := Moves(ops, u, n);
    MovesAreHistory(ops, u, n);
    forall k | 0 <= k <= j
      ensures !ms[k].rotated
    {
      MoveSays(ops, k, u, n);
    }
    MoveSays(ops, i, u, n);
    MoveSays(ops, j, u, n);
    OneWallet(ms, i, j);
  }

  // ----- Idempotency keys -----

  /** A live record answers its key: with the stored wallet for its own owner, with a refusal for anyone else. */
  lemma LiveRecordAnswers(s: State, req: Request, env: Env)
    requires Keyed(req) && req.idempotencyKey.value in s.db.records
    requires env.now <= s.db.records[req.idempotencyKey.value].expiresAt
    ensures var (s', reply) := Create(s, req, env);
      var record := s.db.records[req.idempotencyKey.value];
      && s'.db == s.db
      && (reply.Refused? || (&& For(req, record.userId, record.network)
                             && reply == Replied(record.snapshot, "", record.isNewWallet)))
      && (env.faults == {} ==> (reply.Refused? <==> !For(req, record.userId, record.network)))
  {
    CreateCommits(s, req, env);
    var found := FindExisting(s, req.userId, req.network, env).result;
    if found.Ok? {
      LiveRecordDecides(s.db, req, env, found.value);
    }
  }

  lemma LiveRecordDecides(db: Db, req: Request, env: Env, existing: Option<Snapshot>)
    requires Keyed(req) && req.idempotencyKey.value in db.records
    requires env.now <= db.records[req.idempotencyKey.value].expiresAt
    ensures var record := db.records[req.idempotencyKey.value];
      var tx := InTransaction(db, req, env, existing);
      && (tx.Ok? ==> && For(req, record.userId, record.network)
                     && tx.value == (db, Replied(record.snapshot, "", record.isNewWallet)))
      && (IdempotencyCheck !in env.faults ==> (tx.Ok? <==> For(req, record.userId, record.network)))
  {
  }

  /** No step before its expiry removes or replaces a record. */
  lemma RecordStays(s: State, op: Op, key: string)
    requires key in s.db.records && key != "" && op.env.now <= s.db.records[key].expiresAt
    ensures var s' := Step(s, op).0;
      key in s'.db.records && s'.db.records[key] == s.db.records[key]
  {
    if op.DoCreate? {
      if Keyed(op.req) && op.req.idempotencyKey.value == key {
        LiveRecordAnswers(s, op.req, op.env);
      } else {
        CreateCommits(s, op.req, op.env);
        var found := FindExisting(s, op.req.userId, op.req.network, op.env).result;
        if found.Ok? {
          OtherKey(s.db, op.req, op.env, found.value, key);
        }
      }
    }
  }

  lemma OtherKey(db: Db, req: Request, env: Env, existing: Option<Snapshot>, key: string)
    requires key in db.records && (Keyed(req) ==> req.idempotencyKey.value != key)
    ensures var tx := InTransaction(db, req, env, existing);
      tx.Ok? ==> key in tx.value.0.records && tx.value.0.records[key] == db.records[key]
  {
  }

  lemma {:induction false} RecordLives(ops: seq<Op>, i: nat, j: nat, key: string)
    requires i <= j <= |ops| && key != "" && key in Run(ops[..i]).db.records
    requires forall k :: i <= k < j ==> ops[k].env.now <= Run(ops[..i]).db.records[key].expiresAt
    ensures key in Run(ops[..j]).db.records
    ensures Run(ops[..j]).db.records[key] == Run(ops[..i]).db.records[key]
  {
    if i < j {
      RecordLives(ops, i, j - 1, key);
      assert ops[..j][..j - 1] == ops[..j - 1];
      RecordStays(Run(ops[..j - 1]), ops[j - 1], key);
    }
  }

  function NewRecordOf(req: Request, env: Env, snapshot: Snapshot): Record {
    Record(req.userId, req.network, snapshot, true, env.now + IDEMPOTENCY_TTL_MS)
  }

  /** A transaction that reports a new wallet without a replay has inserted it, and stored its record under its key. */
  lemma TransactionStores(db: Db, req: Request, env: Env, existing: Option<Snapshot>)
    requires var tx := InTransaction(db, req, env, existing);
      tx.Ok? && tx.value.1.Replied? && tx.value.1.isNewWallet
    requires !CheckKey(db.records, req, env.now).Replay?
    ensures existing == None
    ensures Keyed(req) && IdempotencyStore !in env.faults ==>
      var (db', reply) := InTransaction(db, req, env, existing).value;
      && req.idempotencyKey.value in db'.records
      && db'.records[req.idempotencyKey.value] == NewRecordOf(req, env, reply.snapshot)
  {
  }

  /** Only such a transaction adds or changes a record. */
  lemma TransactionAdds(db: Db, req: Request, env: Env, existing: Option<Snapshot>, key: string)
    requires InTransaction(db, req, env, existing).Ok?
    requires var db' := InTransaction(db, req, env, existing).value.0;
      key in db'.records && !(key in db.records && db'.records[key] == db.records[key])
    ensures Keyed(req) && req.idempotencyKey == Some(key) && IdempotencyStore !in env.faults
    ensures !CheckKey(db.records, req, env.now).Replay?
    ensures var reply := InTransaction(db, req, env, existing).value.1;
      reply.Replied? && reply.isNewWallet
  {
  }

  /** A call that reports a new wallet under a key, and whose record is stored, has stored this one. */
  lemma StoresRecord(s: State, req: Request, env: Env)
    requires Keyed(req) && IdempotencyStore !in env.faults
    requires Create(s, req, env).1.Replied? && Create(s, req, env).1.isNewWallet
    requires !CheckKey(s.db.records, req, env.now).Replay?
    ensures var (s', reply) := Create(s, req, env);
      && req.idempotencyKey.value in s'.db.records
      && s'.db.records[req.idempotencyKey.value] == NewRecordOf(req, env, reply.snapshot)
  {
    CreateCommits(s, req, env);
    TransactionStores(s.db, req, env, FindExisting(s, req.userId, req.network, env).result.value);
  }

  /** The i-th step creates a wallet under a key and stores the record of it. */
  predicate CreatesUnderKey(ops: seq<Op>, i: nat)
    requires i < |ops|
  {
    && ops[i].DoCreate? && Keyed(ops[i].req) && IdempotencyStore !in ops[i].env.faults
    && ReplyAt(ops, i).Replied? && ReplyAt(ops, i).isNewWallet
    && !CheckKey(Run(ops[..i]).db.records, ops[i].req, ops[i].env.now).Replay?
  }

  lemma KeyLives(ops: seq<Op>, i: nat, j: nat)
    requires i < j < |ops| && CreatesUnderKey(ops, i)
    requires forall k :: i < k <= j ==> ops[k].env.now <= ops[i].env.now + IDEMPOTENCY_TTL_MS
    ensures var records, key := Run(ops[..j]).db.records, ops[i].req.idempotencyKey.value;
      && key in records
      && records[key] == Record(ops[i].req.userId, ops[i].req.network, ReplyAt(ops, i).snapshot, true,
                                ops[i].env.now + IDEMPOTENCY_TTL_MS)
  {
    StoresRecord(Run(ops[..i]), ops[i].req, ops[i].env);
    RunSnoc(ops, i);
    RecordLives(ops, i + 1, j, ops[i].req.idempotencyKey.value);
  }

  /**
   * Once a call has created a wallet under a key and stored its record, then for 24 hours every call with that key
   * either is refused or is for the same owner and repeats the wallet and the `isNewWallet` of the first, without
   * the private key; and without faults it is refused exactly when it is for another owner.
   */
  lemma KeyReplays(ops: seq<Op>, i: nat, j: nat)
    requires i < j < |ops| && CreatesUnderKey(ops, i)
    requires ops[j].DoCreate? && ops[j].req.idempotencyKey == ops[i].req.idempotencyKey
    requires forall k :: i < k <= j ==> ops[k].env.now <= ops[i].env.now + IDEMPOTENCY_TTL_MS
    ensures var same := For(ops[j].req, ops[i].req.userId, ops[i].req.network);
      && (ReplyAt(ops, j).Refused? || (same && ReplyAt(ops, j) == Replied(ReplyAt(ops, i).snapshot, "", true)))
      && (ops[j].env.faults == {} ==> (ReplyAt(ops, j).Refused? <==> !same))
  {
    KeyLives(ops, i, j);
    LiveRecordAnswers(Run(ops[..j]), ops[j].req, ops[j].env);
  }

  /**
   * After a successful keyed call whose record store does not fail, the key has a record exactly if the call was a
   * replay or the owner had no wallet before it: answering with an existing wallet stores nothing, whatever the
   * contract says.
   */
  lemma ExistingWalletStoresNothing(s: State, req: Request, env: Env, u: string, n: Network)
    requires Coherent(s, u, n) && For(req, u, n) && Keyed(req) && IdempotencyStore !in env.faults
    requires Create(s, req, env).1.Replied?
    ensures var s' := Create(s, req, env).0;
      req.idempotencyKey.value in s'.db.records <==>
      CheckKey(s.db.records, req, env.now).Replay? || Owned(s.db.wallets, u, n) == []
  {
    CreateCommits(s, req, env);
    LookupFinds(s, req, env, u, n);
    var existing := FindExisting(s, req.userId, req.network, env).result.value;
    var lapsed := TransactionCases(s.db, req, env, existing);
    if !CheckKey(s.db.records, req, env.now).Replay? && existing == None {
      AddShape(lapsed, req, env);
      StoresRecord(s, req, env);
    }
  }

  // ----- Reuse of a key by another owner -----

  /** A call without faults is refused exactly when a live record of another owner holds its key. */
  lemma RefusedByConflict(s: State, req: Request, env: Env)
    requires env.faults == {}
    ensures Create(s, req, env).1.Refused? <==> CheckKey(s.db.records, req, env.now) == Conflicting
    ensures Create(s, req, env).1.Refused? ==> Create(s, req, env).1 == Refused(KeyConflict)
  {
  }

  lemma TransactionFault(db: Db, req: Request, env: Env, existing: Option<Snapshot>, f: Phase)
    requires env.faults == {f} && InTransaction(db, req, env, existing).Err?
    ensures var e := InTransaction(db, req, env, existing).error;
      e == PhaseFailed(f) || (e == KeyConflict && CheckKey(db.records, req, env.now) == Conflicting)
  {
  }

  lemma LookupFault(s: State, key: string, u: string, n: Network, env: Env)
    ensures var found := FindUnder(s, key, u, n, env).result;
      found.Err? ==> found.error == PhaseFailed(WalletLookup) && WalletLookup in env.faults
  {
  }

  /** With one fault, a refusal names that phase, or the conflict over the key. */
  lemma RefusedByFault(s: State, req: Request, env: Env, f: Phase)
    requires env.faults == {f} && Create(s, req, env).1.Refused?
    ensures var e := Create(s, req, env).1.error;
      e == PhaseFailed(f) || (e == KeyConflict && CheckKey(s.db.records, req, env.now) == Conflicting)
  {
    LookupFault(s, CacheKey(req.userId, req.network), req.userId, req.network, env);
    var found := FindExisting(s, req.userId, req.network, env).result;
    if found.Ok? {
      RepliedTo(s.db, req, env, found.value);
      if InTransaction(s.db, req, env, found.value).Err? {
        TransactionFault(s.db, req, env, found.value, f);
      }
    }
  }

  /** The i-th step is the first successful call of its owner, and it has a key whose record is stored. */
  ghost predicate FirstUnderKey(ops: seq<Op>, i: nat)
    requires i < |ops|
  {
    && ops[i].DoCreate? && Keyed(ops[i].req) && IdempotencyStore !in ops[i].env.faults
    && ReplyAt(ops, i).Replied?
    && forall h :: 0 <= h < i ==> !Serves(ops, h, ops[i].req.userId, ops[i].req.network)
  }

  /** What the record of the i-th step says if that step stores one. */
  function RecordOf(ops: seq<Op>, i: nat): Record
    requires i < |ops| && ops[i].DoCreate? && ReplyAt(ops, i).Replied?
  {
    NewRecordOf(ops[i].req, ops[i].env, ReplyAt(ops, i).snapshot)
  }

  /** The owner of a creation has no wallet before it exactly when none of the owner's calls has been served. */
  lemma NoWalletYet(ops: seq<Op>, i: nat, u: string, n: Network)
    requires i < |ops|
    ensures Owned(Run(ops[..i]).db.wallets, u, n) == [] <==> forall h :: 0 <= h < i ==> !Serves(ops, h, u, n)
  {
    var ms := Moves(ops, u, n);
    MovesAreHistory(ops, u, n);
    forall h | 0 <= h < i
      ensures ms[h].served == Serves(ops, h, u, n)
    {
      MoveSays(ops, h, u, n);
    }
    OwnsWhenServed(ms, i);
    assert ms[i].before == Owned(Run(ops[..i]).db.wallets, u, n);
  }

  /** Such a step is one that creates a wallet under its key. */
  lemma FirstCreates(ops: seq<Op>, i: nat)
    requires i < |ops| && FirstUnderKey(ops, i)
    ensures CreatesUnderKey(ops, i)
  {
    var s, req, env := Run(ops[..i]), ops[i].req, ops[i].env;
    RunCoherent(ops[..i], req.userId, req.network);
    NoWalletYet(ops, i, req.userId, req.network);
    CreateKeeps(s, req, env, req.userId, req.network);
    assert RecordsOk(s.db.records, [], req.userId, req.network);
  }

  /** Every record in a table was stored by the first successful call of its owner. */
  lemma {:induction false} Provenance(ops: seq<Op>, j: nat, key: string) returns (i: nat)
    requires j <= |ops| && key in Run(ops[..j]).db.records
    ensures i < j && FirstUnderKey(ops, i) && ops[i].req.idempotencyKey == Some(key)
    ensures Run(ops[..j]).db.records[key] == RecordOf(ops, i)
    decreases j
  {
    var k := j - 1;
    RunSnoc(ops, k);
    if key in Run(ops[..k]).db.records && Run(ops[..j]).db.records[key] == Run(ops[..k]).db.records[key] {
      i := Provenance(ops, k, key);
    } else {
      i := k;
      NewRecord(Run(ops[..k]), ops[k], key);
      RunCoherent(ops[..k], ops[k].req.userId, ops[k].req.network);
      FirstOfOwner(Run(ops[..k]), ops[k].req, ops[k].env);
      NoWalletYet(ops, k, ops[k].req.userId, ops[k].req.network);
    }
  }

  /** Only a creation that makes a wallet under the key adds or changes the key's record. */
  lemma NewRecord(s: State, op: Op, key: string)
    requires var s' := Step(s, op).0;
      key in s'.db.records && !(key in s.db.records && s'.db.records[key] == s.db.records[key])
    ensures op.DoCreate? && Keyed(op.req) && op.req.idempotencyKey == Some(key) && IdempotencyStore !in op.env.faults
    ensures var (s', reply) := Step(s, op);
      && reply.Replied? && reply.isNewWallet && !CheckKey(s.db.records, op.req, op.env.now).Replay?
      && s'.db.records[key] == NewRecordOf(op.req, op.env, reply.snapshot)
  {
    CreateCommits(s, op.req, op.env);
    var existing := FindExisting(s, op.req.userId, op.req.network, op.env).result.value;
    TransactionAdds(s.db, op.req, op.env, existing, key);
    TransactionStores(s.db, op.req, op.env, existing);
  }

  lemma FirstOfOwner(s: State, req: Request, env: Env)
    requires Coherent(s, req.userId, req.network)
    requires Create(s, req, env).1.Replied? && Create(s, req, env).1.isNewWallet
    requires !CheckKey(s.db.records, req, env.now).Replay?
    ensures Owned(s.db.wallets, req.userId, req.network) == []
  {
    CreateCommits(s, req, env);
    LookupFinds(s, req, env, req.userId, req.network);
    TransactionStores(s.db, req, env, FindExisting(s, req.userId, req.network, env).result.value);
  }

  /** At the j-th step the key of the i-th, the first successful call of another owner, is at most 24 hours old. */
  ghost predicate HeldAgainst(ops: seq<Op>, i: nat, j: nat)
    requires i < j < |ops| && ops[j].DoCreate?
  {
    && FirstUnderKey(ops, i)
    && ops[i].req.idempotencyKey == ops[j].req.idempotencyKey
    && ops[j].env.now <= ops[i].env.now + IDEMPOTENCY_TTL_MS
    && !For(ops[j].req, ops[i].req.userId, ops[i].req.network)
  }

  /** A refusal of a call without faults has such a step behind it. */
  lemma RefusalHasCause(ops: seq<Op>, j: nat) returns (i: nat)
    requires j < |ops| && ops[j].DoCreate? && Keyed(ops[j].req) && ops[j].env.faults == {}
    requires ReplyAt(ops, j).Refused?
    ensures i < j && HeldAgainst(ops, i, j)
  {
    RefusedByConflict(Run(ops[..j]), ops[j].req, ops[j].env);
    i := Provenance(ops, j, ops[j].req.idempotencyKey.value);
  }

  /** Such a step makes the call be refused. */
  lemma CauseRefuses(ops: seq<Op>, i: nat, j: nat)
    requires i < j < |ops| && ops[j].DoCreate? && ops[j].env.faults == {} && HeldAgainst(ops, i, j)
    requires forall a, b :: 0 <= a < b <= j ==> ops[a].env.now <= ops[b].env.now
    ensures ReplyAt(ops, j).Refused?
  {
    FirstCreates(ops, i);
    Within(ops, i, j, ops[i].env.now + IDEMPOTENCY_TTL_MS);
    KeyReplays(ops, i, j);
  }

  lemma Within(ops: seq<Op>, i: nat, j: nat, limit: int)
    requires i < j < |ops| && ops[j].env.now <= limit
    requires forall a, b :: 0 <= a < b <= j ==> ops[a].env.now <= ops[b].env.now
    ensures forall k :: i < k <= j ==> ops[k].env.now <= limit
  {
  }

  /**
   * The contract refuses every reuse of a key by another owner for 24 hours. In fact, with a clock that does not run
   * backwards and a call without faults, the reuse is refused exactly when the key was used, at most 24 hours ago, by
   * the first successful call of some other owner.
   */
  lemma ReuseIsRefused(ops: seq<Op>, j: nat)
    requires j < |ops| && ops[j].DoCreate? && Keyed(ops[j].req) && ops[j].env.faults == {}
    requires forall a, b :: 0 <= a < b <= j ==> ops[a].env.now <= ops[b].env.now
    ensures ReplyAt(ops, j).Refused? <==> exists i :: 0 <= i < j && HeldAgainst(ops, i, j)
  {
    if ReplyAt(ops, j).Refused? {
      var i := RefusalHasCause(ops, j);
    } else if i :| 0 <= i < j && HeldAgainst(ops, i, j) {
      CauseRefuses(ops, i, j);
    }
  }

  lemma Answered(ops: seq<Op>, i: nat)
    requires i < |ops| && ops[i].DoCreate?
    ensures ReplyAt(ops, i).Refused? || ReplyAt(ops, i).Replied?
  {
    CreateCommits(Run(ops[..i]), ops[i].req, ops[i].env);
  }

  /** A call without faults is served if nothing in the run so far is held against it. */
  lemma ServedUnlessHeld(ops: seq<Op>, j: nat, u: string, n: Network)
    requires j < |ops| && ops[j].DoCreate? && For(ops[j].req, u, n) && ops[j].env.faults == {}
    requires Keyed(ops[j].req) ==> forall i :: 0 <= i < j ==> !HeldAgainst(ops, i, j)
    requires forall a, b :: 0 <= a < b <= j ==> ops[a].env.now <= ops[b].env.now
    ensures Serves(ops, j, u, n)
  {
    Answered(ops, j);
    if Keyed(ops[j].req) {
      ReuseIsRefused(ops, j);
    } else {
      RefusedByConflict(Run(ops[..j]), ops[j].req, ops[j].env);
    }
  }

  /**
   * A key used by an owner who already had a wallet is free for another owner at once: u without a key, u with the
   * key, then v with the key, each without faults, are all served, and v gets a new wallet.
   */
  lemma ReuseSucceeds(ops: seq<Op>, u: string, v: string, n: Network, key: string, env: Env)
    requires u != v && key != "" && env.faults == {} && |ops| == 3
    requires ops[0] == DoCreate(Request(u, n, None), env) && ops[1] == DoCreate(Request(u, n, Some(key)), env)
    requires ops[2] == DoCreate(Request(v, n, Some(key)), env)
    ensures Serves(ops, 1, u, n) && Serves(ops, 2, v, n) && ReplyAt(ops, 2).isNewWallet
  {
    OwnKeyServed(ops, u, n);
    ServedUnlessHeld(ops, 2, v, n);
    OnlyOther(ops, 2, v, n);
  }

  /** The first two of these calls are served, and neither holds the key. */
  lemma OwnKeyServed(ops: seq<Op>, u: string, n: Network)
    requires |ops| >= 2
    requires forall i :: 0 <= i < 2 ==> ops[i].DoCreate? && For(ops[i].req, u, n) && ops[i].env.faults == {}
    requires !Keyed(ops[0].req) && ops[0].env.now <= ops[1].env.now
    ensures Serves(ops, 1, u, n)
    ensures forall i, j :: 0 <= i < 2 && i < j < |ops| && ops[j].DoCreate? ==> !HeldAgainst(ops, i, j)
  {
    ServedUnlessHeld(ops, 0, u, n);
    NotFirst(ops, 0, 0, u, n);
    ServedUnlessHeld(ops, 1, u, n);
    NotFirst(ops, 0, 1, u, n);
  }

  /** A step without a key, or after a served call of the same owner, is not the first of its owner under a key. */
  lemma NotFirst(ops: seq<Op>, h: nat, i: nat, u: string, n: Network)
    requires h <= i < |ops| && ops[i].DoCreate? && For(ops[i].req, u, n)
    requires !Keyed(ops[i].req) || (h < i && Serves(ops, h, u, n))
    ensures !FirstUnderKey(ops, i)
    ensures forall j :: i < j < |ops| && ops[j].DoCreate? ==> !HeldAgainst(ops, i, j)
  {
  }

  /** The first call of an owner that is served creates the owner's wallet. */
  lemma OnlyOther(ops: seq<Op>, j: nat, v: string, n: Network)
    requires j < |ops| && Serves(ops, j, v, n)
    requires forall i :: 0 <= i < j ==> !(ops[i].DoCreate? && For(ops[i].req, v, n))
    ensures ReplyAt(ops, j).isNewWallet
  {
    assert forall i :: 0 <= i < j ==> !Serves(ops, i, v, n);
    PrivateKeyOnlyOnce(ops, j, v, n);
  }

  /** One such run. */
  lemma ReuseCanSucceed()
    ensures var env := Env(0, {}, "pk", "sk", 0);
      var ops := [DoCreate(Request("u", Testnet, None), env), DoCreate(Request("u", Testnet, Some("k")), env),
                  DoCreate(Request("v", Testnet, Some("k")), env)];
      && Serves(ops, 1, "u", Testnet) && Serves(ops, 2, "v", Testnet) && ReplyAt(ops, 2).isNewWallet
  {
    var env := Env(0, {}, "pk", "sk", 0);
    var ops := [DoCreate(Request("u", Testnet, None), env), DoCreate(Request("u", Testnet, Some("k")), env),
                DoCreate(Request("v", Testnet, Some("k")), env)];
    assert "u" != "v";
    ReuseSucceeds(ops, "u", "v", Testnet, "k", env);
  }

  // ----- Which calls are served, and which rotations succeed -----

  /**
   * A creation call is served exactly if the user is resolved, the wallet lookup answers from the cache or the table,
   * the key check answers and finds no other owner's live record, a wallet that has to be made is made, and the
   * transaction commits.
   */
  lemma CreateServed(s: State, req: Request, env: Env, u: string, n: Network)
    requires Coherent(s, u, n) && For(req, u, n)
    ensures Create(s, req, env).1.Replied? <==>
      && UserResolution !in env.faults && Commit !in env.faults
      && (WalletLookup !in env.faults || (&& CacheKey(u, n) in s.cache
                                          && env.now <= s.cache[CacheKey(u, n)].expiresAt))
      && (Keyed(req) ==> IdempotencyCheck !in env.faults)
      && CheckKey(s.db.records, req, env.now) != Conflicting
      && (|| CheckKey(s.db.records, req, env.now).Replay?
          || Owned(s.db.wallets, u, n) != []
          || env.faults !! {KeyGeneration, WalletPersist, WalletActivation, FinalActivation})
  {
    LookupFinds(s, req, env, u, n);
    LookupAnswers(s, CacheKey(u, n), u, n, env);
    var found := FindExisting(s, u, n, env).result;
    if found.Ok? {
      TransactionServed(s.db, req, env, found.value);
    }
  }

  lemma LookupAnswers(s: State, key: string, u: string, n: Network, env: Env)
    ensures FindUnder(s, key, u, n, env).result.Ok? <==>
      WalletLookup !in env.faults || (key in s.cache && env.now <= s.cache[key].expiresAt)
  {
  }

  lemma TransactionServed(db: Db, req: Request, env: Env, existing: Option<Snapshot>)
    ensures InTransaction(db, req, env, existing).Ok? <==>
      && (Keyed(req) ==> IdempotencyCheck !in env.faults)
      && CheckKey(db.records, req, env.now) != Conflicting
      && (|| CheckKey(db.records, req, env.now).Replay?
          || existing.Some?
          || env.faults !! {KeyGeneration, WalletPersist, WalletActivation, FinalActivation})
  {
  }

  /**
   * What a served call answers and writes. An owner without a wallet gets a new last row, ACTIVE, version 1, with the
   * generated key, and the private key; an owner with wallets gets one of them, as not new and without a private key,
   * unless a live record says what to repeat. A key whose record has lapsed loses it.
   */
  lemma CreateAnswers(s: State, req: Request, env: Env, u: string, n: Network)
    requires Coherent(s, u, n) && For(req, u, n) && Create(s, req, env).1.Replied?
    ensures var (s', reply) := Create(s, req, env);
      var row := Wallet(u, n, env.publicKey, Active, 1, None, None);
      var check := CheckKey(s.db.records, req, env.now);
      && (Owned(s.db.wallets, u, n) == [] ==>
            && reply == Replied(Snapshot(|s.db.wallets|, row), env.privateKey, true)
            && s'.db.wallets == s.db.wallets + [row])
      && (Owned(s.db.wallets, u, n) != [] ==> s'.db.wallets == s.db.wallets && reply.privateKey == "")
      && (Owned(s.db.wallets, u, n) != [] && !check.Replay? ==>
            && !reply.isNewWallet
            && s'.db.records == if check == Lapsed then s.db.records - {req.idempotencyKey.value} else s.db.records)
  {
    CreateCommits(s, req, env);
    LookupFinds(s, req, env, u, n);
    var found := FindExisting(s, u, n, env).result;
    TransactionAnswers(s.db, req, env, found.value, u, n);
  }

  lemma TransactionAnswers(db: Db, req: Request, env: Env, existing: Option<Snapshot>, u: string, n: Network)
    requires DbOk(db, u, n) && For(req, u, n) && InTransaction(db, req, env, existing).Ok?
    requires FoundOf(existing, Owned(db.wallets, u, n))
    ensures var (db', reply) := InTransaction(db, req, env, existing).value;
      var row := Wallet(u, n, env.publicKey, Active, 1, None, None);
      var check := CheckKey(db.records, req, env.now);
      && (existing == None ==>
            && reply == Replied(Snapshot(|db.wallets|, row), env.privateKey, true) && db'.wallets == db.wallets + [row])
      && (existing.Some? ==> db'.wallets == db.wallets && reply.Replied? && reply.privateKey == "")
      && (existing.Some? && !check.Replay? ==>
            && !reply.isNewWallet
            && db'.records == if check == Lapsed then db.records - {req.idempotencyKey.value} else db.records)
  {
    var check := CheckKey(db.records, req, env.now);
    if check.Replay? {
      assert db.records[req.idempotencyKey.value] == check.record;
      assert check.record.snapshot.id in Owned(db.wallets, u, n);
    }
  }

  /**
   * A rotation succeeds exactly if the wallet exists, is ACTIVE or ROTATING, has no successor, and no phase fails. Then
   * the successor is the new last row, ACTIVE, with the generated key, the same owner and the next version; the
   * predecessor becomes ROTATING and points to it, and keeps everything else; no other row, no record and no cache
   * entry changes. A rotation that does not succeed changes nothing.
   */
  lemma RotateDecides(s: State, id: nat, env: Env)
    ensures var (s', reply) := Rotate(s, id, env);
      var rows, rows' := s.db.wallets, s'.db.wallets;
      && (reply.RotatedTo? <==>
            && id < |rows| && (rows[id].status == Active || rows[id].status == Rotating) && rows[id].successorId == None
            && KeyGeneration !in env.faults && WalletPersist !in env.faults && Commit !in env.faults)
      && (!reply.RotatedTo? ==> s' == s && reply.Refused?)
      && (reply == Refused(WalletNotFound) <==> id >= |rows|)
      && (reply == Refused(NotRotatable) <==> id < |rows| && rows[id].status != Active && rows[id].status != Rotating)
      && (reply == Refused(HasSuccessor) <==>
            && id < |rows| && (rows[id].status == Active || rows[id].status == Rotating)
            && rows[id].successorId.Some?)
      && (reply.RotatedTo? ==>
            && reply.successorId == |rows| && |rows'| == |rows| + 1
            && rows'[|rows|] == Wallet(rows[id].userId, rows[id].network, env.publicKey, Active,
                                       rows[id].secretVersion + 1, Some(id), None)
            && rows'[id] == rows[id].(status := Rotating, successorId := Some(|rows|))
            && (forall i :: 0 <= i < |rows| && i != id ==> rows'[i] == rows[i])
            && s'.db.records == s.db.records && s'.cache == s.cache)
  {
  }

  // ----- Replies show the wallets they name -----

  /** What a wallet never changes. */
  predicate SameIdentity(a: Wallet, b: Wallet) {
    && a.userId == b.userId && a.network == b.network && a.publicKey == b.publicKey
    && a.secretVersion == b.secretVersion && a.rotatedFromId == b.rotatedFromId
  }

  predicate Shows(x: Snapshot, wallets: seq<Wallet>) {
    x.id < |wallets| && SameIdentity(x.wallet, wallets[x.id])
  }

  /** Rows are added at the end and keep their identity. */
  ghost predicate Grows(wallets: seq<Wallet>, wallets': seq<Wallet>) {
    |wallets| <= |wallets'| && forall i :: 0 <= i < |wallets| ==> SameIdentity(wallets[i], wallets'[i])
  }

  ghost predicate AllShow(cache: Entries<Snapshot>, records: map<string, Record>, wallets: seq<Wallet>) {
    && (forall k :: k in cache ==> Shows(cache[k].value, wallets))
    && (forall k :: k in records ==> Shows(records[k].snapshot, wallets))
  }

  lemma GrowsShow(cache: Entries<Snapshot>, records: map<string, Record>, wallets: seq<Wallet>, wallets': seq<Wallet>)
    requires AllShow(cache, records, wallets) && Grows(wallets, wallets')
    ensures AllShow(cache, records, wallets')
  {
  }

  /** On a cache miss the lookup answers with a row of the table exactly as it stands, and caches it. */
  lemma MissShowsRow(s: State, key: string, u: string, n: Network, env: Env)
    ensures var Lookup(cache, found) := FindUnder(s, key, u, n, env);
      Get(s.cache, key, env.now).1 == None && found.Ok? && found.value.Some? ==>
        var x := found.value.value;
        && x.id < |s.db.wallets| && x.wallet == s.db.wallets[x.id] && Owns(x.wallet, u, n)
        && cache == Get(s.cache, key, env.now).0[key := Entry(x, env.now + CACHE_TTL_MS)]
  {
  }

  lemma LookupShows(s: State, key: string, u: string, n: Network, env: Env)
    requires AllShow(s.cache, s.db.records, s.db.wallets)
    ensures var Lookup(cache, found) := FindUnder(s, key, u, n, env);
      && AllShow(cache, s.db.records, s.db.wallets)
      && (found.Ok? && found.value.Some? ==> Shows(found.value.value, s.db.wallets))
  {
    MissShowsRow(s, key, u, n, env);
  }

  lemma AddShows(db: Db, req: Request, env: Env, cache: Entries<Snapshot>)
    requires AllShow(cache, db.records, db.wallets) && AddWallet(db, req, env).Ok?
    ensures var (db', reply) := AddWallet(db, req, env).value;
      && Grows(db.wallets, db'.wallets) && AllShow(cache, db'.records, db'.wallets)
      && reply.Replied? && Shows(reply.snapshot, db'.wallets)
  {
    AddShape(db, req, env);
    var db' := AddWallet(db, req, env).value.0;
    GrowsShow(cache, db.records, db.wallets, db'.wallets);
  }

  lemma TransactionShows(db: Db, req: Request, env: Env, existing: Option<Snapshot>, cache: Entries<Snapshot>)
    requires AllShow(cache, db.records, db.wallets) && InTransaction(db, req, env, existing).Ok?
    requires existing.Some? ==> Shows(existing.value, db.wallets)
    ensures var (db', reply) := InTransaction(db, req, env, existing).value;
      && Grows(db.wallets, db'.wallets) && AllShow(cache, db'.records, db'.wallets)
      && reply.Replied? && Shows(reply.snapshot, db'.wallets)
  {
    var lapsed := TransactionCases(db, req, env, existing);
    var check := CheckKey(db.records, req, env.now);
    if check.Replay? {
      assert db.records[req.idempotencyKey.value] == check.record;
    } else if existing == None {
      AddShows(lapsed, req, env, cache);
    }
  }

  lemma CreateShows(s: State, req: Request, env: Env)
    requires AllShow(s.cache, s.db.records, s.db.wallets)
    ensures var (s', reply) := Create(s, req, env);
      && Grows(s.db.wallets, s'.db.wallets) && AllShow(s'.cache, s'.db.records, s'.db.wallets)
      && (reply.Replied? ==> Shows(reply.snapshot, s'.db.wallets))
  {
    CreateCommits(s, req, env);
    LookupShows(s, CacheKey(req.userId, req.network), req.userId, req.network, env);
    var Lookup(cache, found) := FindExisting(s, req.userId, req.network, env);
    if Create(s, req, env).1.Replied? {
      TransactionShows(s.db, req, env, found.value, cache);
    }
  }

  lemma RotateShows(s: State, id: nat, env: Env)
    requires AllShow(s.cache, s.db.records, s.db.wallets)
    ensures var s' := Rotate(s, id, env).0;
      Grows(s.db.wallets, s'.db.wallets) && AllShow(s'.cache, s'.db.records, s'.db.wallets)
  {
    RotateDecides(s, id, env);
    var s' := Rotate(s, id, env).0;
    if s' != s {
      GrowsShow(s.cache, s.db.records, s.db.wallets, s'.db.wallets);
    }
  }

  lemma StepShows(s: State, op: Op)
    requires AllShow(s.cache, s.db.records, s.db.wallets)
    ensures var (s', reply) := Step(s, op);
      && Grows(s.db.wallets, s'.db.wallets) && AllShow(s'.cache, s'.db.records, s'.db.wallets)
      && (op.DoCreate? && reply.Replied? ==> Shows(reply.snapshot, s'.db.wallets))
  {
    match op
    case DoCreate(req, env) => CreateShows(s, req, env);
    case DoRotate(id, env) => RotateShows(s, id, env);
    case DoClear(_) =>
  }

  lemma {:induction false} RunShows(ops: seq<Op>, n: nat)
    requires n <= |ops|
    ensures AllShow(Run(ops[..n]).cache, Run(ops[..n]).db.records, Run(ops[..n]).db.wallets)
  {
    if n > 0 {
      RunShows(ops, n - 1);
      RunSnoc(ops, n - 1);
      StepShows(Run(ops[..n - 1]), ops[n - 1]);
    }
  }

  lemma {:induction false} RunGrows(ops: seq<Op>, i: nat, j: nat)
    requires i <= j <= |ops|
    ensures Grows(Run(ops[..i]).db.wallets, Run(ops[..j]).db.wallets)
  {
    if i < j {
      RunGrows(ops, i, j - 1);
      RunShows(ops, j - 1);
      RunSnoc(ops, j - 1);
      StepShows(Run(ops[..j - 1]), ops[j - 1]);
    }
  }

  /**
   * In every run, what a successful creation call shows of a wallet, its owner, key, version and predecessor, is what
   * the table says of the wallet it names, at that moment and ever after; and that owner is the one who called.
   */
  lemma ReplyShowsWallet(ops: seq<Op>, j: nat, u: string, n: Network)
    requires j < |ops| && Serves(ops, j, u, n)
    ensures ReplyAt(ops, j).Replied?
    ensures var x := ReplyAt(ops, j).snapshot;
      && Shows(x, Run(ops[..j + 1]).db.wallets) && Shows(x, Run(ops).db.wallets)
      && x.wallet.userId == u && x.wallet.network == n
  {
    RunShows(ops, j);
    RunSnoc(ops, j);
    StepShows(Run(ops[..j]), ops[j]);
    RunGrows(ops, j + 1, |ops|);
    assert ops[..|ops|] == ops;
    PrivateKeyOnlyOnce(ops, j, u, n);
  }
}
