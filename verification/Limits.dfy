/**
 * Spending limits and the payments checked against them. Amounts are whole stroops. The daily usage of a
 * wallet counts its own transactions and every payment row of the day, whoever sent it.
 */
module Limits {
  import opened Prelude

  datatype Limit = Limit(daily: int, perTransaction: int, deletedAt: Option<int>)

  /** A transaction or payment row: its sending wallet, amount and creation time. */
  datatype Row = Row(sender: string, amount: int, createdAt: int)

  datatype Books = Books(limits: map<string, Limit>, transactions: seq<Row>, payments: seq<Row>, keys: set<string>)

  datatype Decision = Allowed | PerTransactionExceeded | DailyExceeded

  /** The sum of the rows created since a time, of one sender or of all. */
  function Sum(rows: seq<Row>, sender: Option<string>, since: int): int {
    if rows == [] then 0
    else
      var row := rows[|rows| - 1];
      Sum(rows[..|rows| - 1], sender, since)
      + if row.createdAt >= since && (sender.Some? ==> row.sender == sender.value) then row.amount else 0
  }

  function Usage(b: Books, wallet: string, startOfDay: int): int {
    Sum(b.transactions, Some(wallet), startOfDay) + Sum(b.payments, None, startOfDay)
  }

  /** The remaining daily limit reported for a wallet with a positive daily limit. */
  function Remaining(b: Books, wallet: string, startOfDay: int): Option<int> {
    if wallet !in b.limits || b.limits[wallet].daily <= 0 then None
    else Some(Max(0, b.limits[wallet].daily - Usage(b, wallet, startOfDay)))
  }

  function Check(b: Books, wallet: string, amount: int, startOfDay: int): Decision {
    if wallet !in b.limits then Allowed
    else
      var limit := b.limits[wallet];
      if limit.perTransaction >= 0 && amount > limit.perTransaction then PerTransactionExceeded
      else if limit.daily > 0 && Usage(b, wallet, startOfDay) + amount > limit.daily then DailyExceeded
      else Allowed
  }

  datatype Payment = Payment(wallet: string, amount: int, idempotencyKey: Option<string>)

  datatype Outcome = Existing | Created | Invalid | Denied(decision: Decision) | KeyTaken | TransactionFailed

  /** Transaction orchestration: absent, or the transaction row is written, or writing it fails. */
  datatype Orchestration = NotConfigured | Written | Fails

  function AddPayment(b: Books, p: Payment, now: int): Books {
    b.(payments := b.payments + [Row(p.wallet, p.amount, now)],
       keys := if p.idempotencyKey.Some? then b.keys + {p.idempotencyKey.value} else b.keys)
  }

  /** The transaction row that orchestration writes for the same amount. */
  function AddTransaction(b: Books, p: Payment, now: int): Books {
    b.(transactions := b.transactions + [Row(p.wallet, p.amount, now)])
  }

  predicate KeyInUse(b: Books, p: Payment) {
    p.idempotencyKey.Some? && p.idempotencyKey.value in b.keys
  }

  /** An empty key is not looked up, but its column is still unique. The payment row stays when a later step fails. */
  function Create(b: Books, p: Payment, valid: bool, now: int, startOfDay: int, tx: Orchestration): (Books, Outcome) {
    var taken := KeyInUse(b, p);
    if taken && p.idempotencyKey.value != "" then (b, Existing)
    else if !valid then (b, Invalid)
    else
      var decision := Check(b, p.wallet, p.amount, startOfDay);
      if decision != Allowed then (b, Denied(decision))
      else if taken then (b, KeyTaken)
      else
        var b' := AddPayment(b, p, now);
        (if tx == Written then AddTransaction(b', p, now) else b', if tx == Fails then TransactionFailed else Created)
  }

  function Remove(b: Books, wallet: string, now: int): Books {
    if wallet !in b.limits then b
    else b.(limits := b.limits[wallet := b.limits[wallet].(deletedAt := Some(now))])
  }

  class PaymentsService {
    var limits: map<string, Limit>
    var transactions: seq<Row>
    var payments: seq<Row>
    var keys: set<string>
    function Model(): Books
      reads this
    {
      Books(limits, transactions, payments, keys)
    }

    constructor ()
      ensures Model() == Books(map[], [], [], {})
    {
      limits, transactions, payments, keys := map[], [], [], {};
    }

    method GetDailyUsageTotal(wallet: string, startOfDay: int) returns (total: int)
      ensures total == Usage(Model(), wallet, startOfDay)
    {
      var own := 0;
      for i := 0 to |transactions|
        invariant own == Sum(transactions[..i], Some(wallet), startOfDay)
      {
        assert transactions[..i + 1][..i] == transactions[..i];
        if transactions[i].createdAt >= startOfDay && transactions[i].sender == wallet {
          own := own + transactions[i].amount;
        }
      }
      var all := 0;
      for i := 0 to |payments|
        invariant all == Sum(payments[..i], None, startOfDay)
      {
        assert payments[..i + 1][..i] == payments[..i];
        if payments[i].createdAt >= startOfDay {
          all := all + payments[i].amount;
        }
      }
      assert transactions[..|transactions|] == transactions && payments[..|payments|] == payments;
      total := own + all;
    }

    method CheckLimits(wallet: string, amount: int, startOfDay: int) returns (d: Decision)
      ensures d == Check(Model(), wallet, amount, startOfDay)
    {
      if wallet !in limits {
        return Allowed;
      }
      var limit := limits[wallet];
      if limit.perTransaction >= 0 && amount > limit.perTransaction {
        return PerTransactionExceeded;
      }
      if limit.daily > 0 {
        var used := GetDailyUsageTotal(wallet, startOfDay);
        if used + amount > limit.daily {
          return DailyExceeded;
        }
      }
      return Allowed;
    }

    /** `valid` stands for the checks on the two wallets. */
    method CreatePayment(p: Payment, valid: bool, now: int, startOfDay: int, tx: Orchestration) returns (r: Outcome)
      modifies this
      ensures (Model(), r) == Create(old(Model()), p, valid, now, startOfDay, tx)
    {
      var taken := p.idempotencyKey.Some? && p.idempotencyKey.value in keys;
      if taken && p.idempotencyKey.value != "" {
        return Existing;
      }
      if !valid {
        return Invalid;
      }
      var d := CheckLimits(p.wallet, p.amount, startOfDay);
      if d != Allowed {
        return Denied(d);
      }
      if taken {
        return KeyTaken;
      }
      payments := payments + [Row(p.wallet, p.amount, now)];
      if p.idempotencyKey.Some? {
        keys := keys + {p.idempotencyKey.value};
      }
      if tx == Fails {
        return TransactionFailed;
      }
      if tx == Written {
        transactions := transactions + [Row(p.wallet, p.amount, now)];
      }
      return Created;
    }

    method RemoveLimits(wallet: string, now: int) returns (found: bool)
      modifies this
      ensures Model() == Remove(old(Model()), wallet, now)
      ensures found <==> wallet in old(limits)
    {
      found := wallet in limits;
      if found {
        limits := limits[wallet := limits[wallet].(deletedAt := Some(now))];
      }
    }
  }

  // ----- One check -----

  /** For a positive amount within the per-transaction limit, the check passes exactly up to the reported remainder. */
  lemma RemainingIsExact(b: Books, wallet: string, amount: int, startOfDay: int)
    requires wallet in b.limits && b.limits[wallet].daily > 0 && amount > 0
    requires b.limits[wallet].perTransaction < 0 || amount <= b.limits[wallet].perTransaction
    ensures Check(b, wallet, amount, startOfDay) == Allowed <==> amount <= Remaining(b, wallet, startOfDay).value
    ensures var left := b.limits[wallet].daily - Usage(b, wallet, startOfDay);
      Remaining(b, wallet, startOfDay) == Some(if left < 0 then 0 else left)
  {
  }

  /** A removed limit keeps being enforced: removal changes no decision, whatever is checked afterwards. */
  lemma RemovalChangesNothing(b: Books, wallet: string, now: int, other: string, amount: int, startOfDay: int)
    ensures Check(Remove(b, wallet, now), other, amount, startOfDay) == Check(b, other, amount, startOfDay)
    ensures wallet in b.limits ==>
      && wallet in Remove(b, wallet, now).limits && Remove(b, wallet, now).limits[wallet].deletedAt == Some(now)
      && Remove(b, wallet, now).limits - {wallet} == b.limits - {wallet}
  {
  }

  /** A payment that only the removed limit forbids is still denied. */
  lemma RemovedLimitDenies()
    ensures var b := Books(map["w" := Limit(10, 10, None)], [], [], {});
      && Check(b.(limits := map[]), "w", 11, 0) == Allowed
      && Check(Remove(b, "w", 5), "w", 11, 0) == PerTransactionExceeded
      && Create(Remove(b, "w", 5), Payment("w", 11, None), true, 6, 0, NotConfigured)
         == (Remove(b, "w", 5), Denied(PerTransactionExceeded))
  {
    var b := Books(map["w" := Limit(10, 10, None)], [], [], {});
    RemovalChangesNothing(b, "w", 5, "w", 11, 0);
  }

  // ----- Sums -----

  ghost predicate NonNegative(rows: seq<Row>) {
    forall i :: 0 <= i < |rows| ==> rows[i].amount >= 0
  }

  lemma {:induction false} SenderIsPart(rows: seq<Row>, sender: string, since: int)
    requires NonNegative(rows)
    ensures 0 <= Sum(rows, Some(sender), since) <= Sum(rows, None, since)
  {
    if rows != [] {
      SenderIsPart(rows[..|rows| - 1], sender, since);
    }
  }

  lemma SumAppend(rows: seq<Row>, row: Row, sender: Option<string>, since: int)
    ensures Sum(rows + [row], sender, since)
      == Sum(rows, sender, since)
         + if row.createdAt >= since && (sender.Some? ==> row.sender == sender.value) then row.amount else 0
  {
    assert (rows + [row])[..|rows|] == rows;
  }

  // ----- Serial runs -----

  datatype Op =
    | Pay(payment: Payment, valid: bool, now: int, tx: Orchestration)
    | RemoveLimit(wallet: string, now: int)

  /** Every check in the run sees the same start of day. */
  function Run(b: Books, ops: seq<Op>, startOfDay: int): Books {
    if ops == [] then b
    else
      var b' := Run(b, ops[..|ops| - 1], startOfDay);
      match ops[|ops| - 1]
      case Pay(p, valid, now, tx) => Create(b', p, valid, now, startOfDay, tx).0
      case RemoveLimit(wallet, now) => Remove(b', wallet, now)
  }

  ghost predicate Sound(b: Books, wallet: string, daily: int, startOfDay: int) {
    && NonNegative(b.transactions) && NonNegative(b.payments)
    && wallet in b.limits && b.limits[wallet].daily == daily
    && Sum(b.payments, Some(wallet), startOfDay) <= daily
  }

  /** A payment that passes the check of its wallet fits into what the wallet's own payments leave. */
  lemma CheckedFits(b: Books, p: Payment, wallet: string, daily: int, startOfDay: int)
    requires Sound(b, wallet, daily, startOfDay) && daily > 0
    requires Check(b, p.wallet, p.amount, startOfDay) == Allowed && p.wallet == wallet
    ensures Sum(b.payments, Some(wallet), startOfDay) + p.amount <= daily
  {
    SenderIsPart(b.payments, wallet, startOfDay);
    SenderIsPart(b.transactions, wallet, startOfDay);
  }

  lemma PaymentSound(b: Books, p: Payment, now: int, wallet: string, daily: int, startOfDay: int)
    requires Sound(b, wallet, daily, startOfDay) && p.amount >= 0
    requires p.wallet == wallet ==> Sum(b.payments, Some(wallet), startOfDay) + p.amount <= daily
    ensures Sound(AddPayment(b, p, now), wallet, daily, startOfDay)
  {
    SumAppend(b.payments, Row(p.wallet, p.amount, now), Some(wallet), startOfDay);
  }

  lemma TransactionSound(b: Books, p: Payment, now: int, wallet: string, daily: int, startOfDay: int)
    requires Sound(b, wallet, daily, startOfDay) && p.amount >= 0
    ensures Sound(AddTransaction(b, p, now), wallet, daily, startOfDay)
  {
  }

  /** A creation changes nothing, or has passed its check and adds its rows. */
  lemma CreateCases(b: Books, p: Payment, valid: bool, now: int, startOfDay: int, tx: Orchestration)
    ensures var b' := Create(b, p, valid, now, startOfDay, tx).0;
      || b' == b
      || (&& Check(b, p.wallet, p.amount, startOfDay) == Allowed
          && (b' == AddPayment(b, p, now) || b' == AddTransaction(AddPayment(b, p, now), p, now)))
  {
  }

  lemma PayStep(
      b: Books, p: Payment, valid: bool, now: int, tx: Orchestration, wallet: string, daily: int, startOfDay: int)
    requires Sound(b, wallet, daily, startOfDay) && daily > 0 && p.amount >= 0
    ensures Sound(Create(b, p, valid, now, startOfDay, tx).0, wallet, daily, startOfDay)
  {
    CreateCases(b, p, valid, now, startOfDay, tx);
    if Create(b, p, valid, now, startOfDay, tx).0 != b {
      if p.wallet == wallet {
        CheckedFits(b, p, wallet, daily, startOfDay);
      }
      PaymentSound(b, p, now, wallet, daily, startOfDay);
      TransactionSound(AddPayment(b, p, now), p, now, wallet, daily, startOfDay);
    }
  }

  /**
   * With non-negative amounts and a positive daily limit, payments one after another, by any wallets, with any
   * keys, and with limits being removed in between, never admit more for a wallet in a day than its limit.
   */
  lemma {:induction false} DailyLimitHolds(b: Books, ops: seq<Op>, wallet: string, daily: int, startOfDay: int)
    requires Sound(b, wallet, daily, startOfDay) && daily > 0
    requires forall i :: 0 <= i < |ops| && ops[i].Pay? ==> ops[i].payment.amount >= 0
    ensures Sound(Run(b, ops, startOfDay), wallet, daily, startOfDay)
  {
    if ops != [] {
      var front, op := ops[..|ops| - 1], ops[|ops| - 1];
      DailyLimitHolds(b, front, wallet, daily, startOfDay);
      if op.Pay? {
        PayStep(Run(b, front, startOfDay), op.payment, op.valid, op.now, op.tx, wallet, daily, startOfDay);
      }
    }
  }

  // ----- Batches -----

  /** A batch creates its payments concurrently. `Finished` is the end of a creation that inserts nothing. */
  datatype Stage = Waiting | Passed | Finished | Inserted | Recorded

  /** The payments, of any wallets and with any keys, the day, and whether transactions are orchestrated. */
  datatype Order = Order(payments: seq<Payment>, startOfDay: int, orchestrated: bool)

  datatype Batch = Batch(books: Books, stages: seq<Stage>)

  /** The key and limit checks of a creation, its payment row, and its transaction row, each at a moment of its own. */
  datatype BatchStep = CheckOne(i: nat, valid: bool) | InsertOne(i: nat, now: int) | RecordOne(i: nat, now: int)

  function StepBatch(s: Batch, o: Order, step: BatchStep): (s': Batch)
    requires |s.stages| == |o.payments|
    ensures |s'.stages| == |o.payments|
  {
    var i := step.i;
    if i >= |o.payments| then s
    else
      var p := o.payments[i];
      if step.CheckOne? && s.stages[i] == Waiting then
        var known := KeyInUse(s.books, p) && p.idempotencyKey.value != "";
        var ok := !known && step.valid && Check(s.books, p.wallet, p.amount, o.startOfDay) == Allowed;
        s.(stages := s.stages[i := if ok then Passed else Finished])
      else if step.InsertOne? && s.stages[i] == Passed then
        if KeyInUse(s.books, p) then s.(stages := s.stages[i := Finished])
        else Batch(AddPayment(s.books, p, step.now), s.stages[i := Inserted])
      else if step.RecordOne? && s.stages[i] == Inserted && o.orchestrated then
        Batch(AddTransaction(s.books, p, step.now), s.stages[i := Recorded])
      else s
  }

  function RunBatch(s: Batch, o: Order, steps: seq<BatchStep>): (s': Batch)
    requires |s.stages| == |o.payments|
    ensures |s'.stages| == |o.payments|
  {
    if steps == [] then s else StepBatch(RunBatch(s, o, steps[..|steps| - 1]), o, steps[|steps| - 1])
  }

  function Start(b: Books, o: Order): Batch {
    Batch(b, seq(|o.payments|, _ => Waiting))
  }

  // ----- What a batch adds to a wallet's usage -----

  /** The wallet's own payments, their transaction rows, and the payments of other wallets. */
  datatype Part = Own | Repeated | Others

  function Share(part: Part, wallet: string, stage: Stage, p: Payment): int {
    match part
    case Own => if stage in {Inserted, Recorded} && p.wallet == wallet then p.amount else 0
    case Repeated => if stage == Recorded && p.wallet == wallet then p.amount else 0
    case Others => if stage in {Inserted, Recorded} && p.wallet != wallet then p.amount else 0
  }

  function Total(part: Part, wallet: string, stages: seq<Stage>, payments: seq<Payment>): int
    requires |stages| == |payments|
  {
    if stages == [] then 0
    else
      var n := |stages| - 1;
      Total(part, wallet, stages[..n], payments[..n]) + Share(part, wallet, stages[n], payments[n])
  }

  function CountOf(payments: seq<Payment>, wallet: string): nat {
    if payments == [] then 0
    else CountOf(payments[..|payments| - 1], wallet) + if payments[|payments| - 1].wallet == wallet then 1 else 0
  }

  lemma {:induction false} TotalUpdate(
      part: Part, wallet: string, stages: seq<Stage>, payments: seq<Payment>, i: nat, stage: Stage)
    requires |stages| == |payments| && i < |stages|
    ensures Total(part, wallet, stages[i := stage], payments)
      == Total(part, wallet, stages, payments)
         - Share(part, wallet, stages[i], payments[i]) + Share(part, wallet, stage, payments[i])
  {
    var n := |stages| - 1;
    if i < n {
      TotalUpdate(part, wallet, stages[..n], payments[..n], i, stage);
      assert stages[i := stage][..n] == stages[..n][i := stage];
    } else {
      assert stages[i := stage][..n] == stages[..n];
    }
  }

  lemma {:induction false} TotalBound(part: Part, wallet: string, stages: seq<Stage>, payments: seq<Payment>, cap: nat)
    requires |stages| == |payments| && part != Others
    requires forall i :: 0 <= i < |stages| && stages[i] in {Inserted, Recorded} && payments[i].wallet == wallet ==>
      payments[i].amount <= cap
    ensures Total(part, wallet, stages, payments) <= CountOf(payments, wallet) * cap
  {
    if stages != [] {
      var n := |stages| - 1;
      TotalBound(part, wallet, stages[..n], payments[..n], cap);
      var c := CountOf(payments[..n], wallet);
      assert (c + 1) * cap == c * cap + cap;
    }
  }

  lemma {:induction false} TotalNatural(part: Part, wallet: string, stages: seq<Stage>, payments: seq<Payment>)
    requires |stages| == |payments| && forall i :: 0 <= i < |payments| ==> payments[i].amount >= 0
    ensures Total(part, wallet, stages, payments) >= 0
  {
    if stages != [] {
      TotalNatural(part, wallet, stages[..|stages| - 1], payments[..|stages| - 1]);
    }
  }

  lemma {:induction false} TotalNone(
      part: Part, wallet: string, stages: seq<Stage>, payments: seq<Payment>, none: set<Stage>)
    requires |stages| == |payments| && forall i :: 0 <= i < |stages| ==> stages[i] !in none
    requires (none == {Recorded} && part == Repeated) || none == {Inserted, Recorded}
    ensures Total(part, wallet, stages, payments) == 0
  {
    if stages != [] {
      TotalNone(part, wallet, stages[..|stages| - 1], payments[..|stages| - 1], none);
    }
  }

  /** Rows written, and so counted, per payment. */
  function RowsPerPayment(orchestrated: bool): nat {
    if orchestrated then 2 else 1
  }

  /** The largest single amount a check can pass against usage U: U below both limits. */
  function Cap(limit: Limit, usage: int): int {
    if limit.perTransaction >= 0 then Min(limit.perTransaction, limit.daily - usage) else limit.daily - usage
  }

  /** What all payments of the batch have added to the wallet's usage so far. */
  function Added(wallet: string, stages: seq<Stage>, payments: seq<Payment>): int
    requires |stages| == |payments|
  {
    Total(Own, wallet, stages, payments) + Total(Repeated, wallet, stages, payments)
    + Total(Others, wallet, stages, payments)
  }

  /** What one payment adds to the wallet's usage. */
  function Weight(wallet: string, stage: Stage, p: Payment): int {
    match stage
    case Inserted => p.amount
    case Recorded => if p.wallet == wallet then 2 * p.amount else p.amount
    case _ => 0
  }

  lemma AddedUpdate(wallet: string, stages: seq<Stage>, payments: seq<Payment>, i: nat, stage: Stage)
    requires |stages| == |payments| && i < |stages|
    ensures Added(wallet, stages[i := stage], payments)
      == Added(wallet, stages, payments) + Weight(wallet, stage, payments[i]) - Weight(wallet, stages[i], payments[i])
  {
    TotalUpdate(Own, wallet, stages, payments, i, stage);
    TotalUpdate(Repeated, wallet, stages, payments, i, stage);
    TotalUpdate(Others, wallet, stages, payments, i, stage);
  }

  ghost predicate BatchInv(s: Batch, o: Order, wallet: string, limit: Limit, usage: int)
    requires |s.stages| == |o.payments|
  {
    && wallet in s.books.limits && s.books.limits[wallet] == limit
    && Usage(s.books, wallet, o.startOfDay) == usage + Added(wallet, s.stages, o.payments)
    && (forall i ::
          0 <= i < |s.stages| && o.payments[i].wallet == wallet && s.stages[i] in {Passed, Inserted, Recorded} ==>
          o.payments[i].amount <= Cap(limit, usage))
    && (!o.orchestrated ==> forall i :: 0 <= i < |s.stages| ==> s.stages[i] != Recorded)
  }

  lemma PaymentUsage(b: Books, p: Payment, now: int, wallet: string, startOfDay: int)
    requires now >= startOfDay
    ensures Usage(AddPayment(b, p, now), wallet, startOfDay) == Usage(b, wallet, startOfDay) + p.amount
    ensures Usage(AddTransaction(b, p, now), wallet, startOfDay)
      == Usage(b, wallet, startOfDay) + if p.wallet == wallet then p.amount else 0
  {
    SumAppend(b.payments, Row(p.wallet, p.amount, now), None, startOfDay);
    SumAppend(b.transactions, Row(p.wallet, p.amount, now), Some(wallet), startOfDay);
  }

  /** Usage never falls below where it started, so a check passes at most what is left from there. */
  lemma CheckKeeps(s: Batch, o: Order, wallet: string, limit: Limit, usage: int, i: nat, valid: bool)
    requires |s.stages| == |o.payments| && limit.daily > 0
    requires forall k :: 0 <= k < |o.payments| ==> o.payments[k].amount >= 0
    requires BatchInv(s, o, wallet, limit, usage)
    ensures BatchInv(StepBatch(s, o, CheckOne(i, valid)), o, wallet, limit, usage)
  {
    if i < |o.payments| && s.stages[i] == Waiting {
      AddedUpdate(wallet, s.stages, o.payments, i, Passed);
      AddedUpdate(wallet, s.stages, o.payments, i, Finished);
      TotalNatural(Own, wallet, s.stages, o.payments);
      TotalNatural(Repeated, wallet, s.stages, o.payments);
      TotalNatural(Others, wallet, s.stages, o.payments);
    }
  }

  /** A step that moves one payment to a later stage and changes usage by the difference in weight. */
  lemma MoveKeeps(s: Batch, o: Order, wallet: string, limit: Limit, usage: int, i: nat, stage: Stage, books: Books)
    requires |s.stages| == |o.payments| && i < |o.payments|
    requires BatchInv(s, o, wallet, limit, usage)
    requires books.limits == s.books.limits
    requires Usage(books, wallet, o.startOfDay) == Usage(s.books, wallet, o.startOfDay)
      + Weight(wallet, stage, o.payments[i]) - Weight(wallet, s.stages[i], o.payments[i])
    requires s.stages[i] in {Passed, Inserted} && (stage == Recorded ==> o.orchestrated)
    ensures BatchInv(Batch(books, s.stages[i := stage]), o, wallet, limit, usage)
  {
    AddedUpdate(wallet, s.stages, o.payments, i, stage);
  }

  lemma WriteKeeps(s: Batch, o: Order, wallet: string, limit: Limit, usage: int, step: BatchStep)
    requires |s.stages| == |o.payments| && !step.CheckOne? && step.now >= o.startOfDay
    requires BatchInv(s, o, wallet, limit, usage)
    ensures BatchInv(StepBatch(s, o, step), o, wallet, limit, usage)
  {
    var i := step.i;
    if i < |o.payments| {
      var p := o.payments[i];
      PaymentUsage(s.books, p, step.now, wallet, o.startOfDay);
      if step.InsertOne? && s.stages[i] == Passed {
        if KeyInUse(s.books, p) {
          MoveKeeps(s, o, wallet, limit, usage, i, Finished, s.books);
        } else {
          MoveKeeps(s, o, wallet, limit, usage, i, Inserted, AddPayment(s.books, p, step.now));
        }
      } else if step.RecordOne? && s.stages[i] == Inserted && o.orchestrated {
        MoveKeeps(s, o, wallet, limit, usage, i, Recorded, AddTransaction(s.books, p, step.now));
      }
    }
  }

  lemma {:induction false} BatchKeeps(
      s: Batch, o: Order, wallet: string, limit: Limit, usage: int, steps: seq<BatchStep>)
    requires |s.stages| == |o.payments| && limit.daily > 0
    requires forall k :: 0 <= k < |o.payments| ==> o.payments[k].amount >= 0
    requires forall i :: 0 <= i < |steps| && !steps[i].CheckOne? ==> steps[i].now >= o.startOfDay
    requires BatchInv(s, o, wallet, limit, usage)
    ensures BatchInv(RunBatch(s, o, steps), o, wallet, limit, usage)
  {
    if steps != [] {
      var n := |steps| - 1;
      BatchKeeps(s, o, wallet, limit, usage, steps[..n]);
      var m := RunBatch(s, o, steps[..n]);
      if steps[n].CheckOne? {
        CheckKeeps(m, o, wallet, limit, usage, steps[n].i, steps[n].valid);
      } else {
        WriteKeeps(m, o, wallet, limit, usage, steps[n]);
      }
    }
  }

  /**
   * Batch payments of any wallets, with any keys, however their checks and writes interleave: a wallet with k of them
   * and usage U within its daily limit spends at most k * min(per-transaction limit, daily limit - U). Its usage ends
   * at most at U + rows * that, plus what the other wallets' payments of the batch count, where rows is the number of
   * rows written per payment: 1 without transaction orchestration, 2 with it.
   */
  lemma BatchBound(b: Books, o: Order, wallet: string, steps: seq<BatchStep>)
    requires wallet in b.limits && b.limits[wallet].daily > 0
    requires Usage(b, wallet, o.startOfDay) <= b.limits[wallet].daily
    requires forall k :: 0 <= k < |o.payments| ==> o.payments[k].amount >= 0
    requires forall i :: 0 <= i < |steps| && !steps[i].CheckOne? ==> steps[i].now >= o.startOfDay
    ensures var usage := Usage(b, wallet, o.startOfDay);
      var s := RunBatch(Start(b, o), o, steps);
      var most := CountOf(o.payments, wallet) * Cap(b.limits[wallet], usage);
      && Total(Own, wallet, s.stages, o.payments) <= most
      && Usage(s.books, wallet, o.startOfDay)
         <= usage + RowsPerPayment(o.orchestrated) * most + Total(Others, wallet, s.stages, o.payments)
  {
    var usage, limit := Usage(b, wallet, o.startOfDay), b.limits[wallet];
    var start := Start(b, o);
    TotalNone(Own, wallet, start.stages, o.payments, {Inserted, Recorded});
    TotalNone(Repeated, wallet, start.stages, o.payments, {Inserted, Recorded});
    TotalNone(Others, wallet, start.stages, o.payments, {Inserted, Recorded});
    BatchKeeps(start, o, wallet, limit, usage, steps);
    var s := RunBatch(start, o, steps);
    TotalBound(Own, wallet, s.stages, o.payments, Cap(limit, usage));
    TotalBound(Repeated, wallet, s.stages, o.payments, Cap(limit, usage));
    if !o.orchestrated {
      TotalNone(Repeated, wallet, s.stages, o.payments, {Recorded});
    }
  }

  /** With orchestration the bound without the factor of two fails: one admitted payment of 10 is counted as 20. */
  lemma DoubleCounting()
    ensures var b := Books(map["w" := Limit(10, 10, None)], [], [], {});
      var o := Order([Payment("w", 10, None)], 0, true);
      var s := RunBatch(Start(b, o), o, [CheckOne(0, true), InsertOne(0, 0), RecordOne(0, 0)]);
      Usage(s.books, "w", 0) == 20 > Usage(b, "w", 0) + 1 * Cap(b.limits["w"], Usage(b, "w", 0))
  {
    var b := Books(map["w" := Limit(10, 10, None)], [], [], {});
    var p := Payment("w", 10, None);
    var o := Order([p], 0, true);
    var steps := [CheckOne(0, true), InsertOne(0, 0), RecordOne(0, 0)];
    assert steps[..2] == [CheckOne(0, true), InsertOne(0, 0)] && steps[..2][..1] == [CheckOne(0, true)];
    assert steps[..2][..1][..0] == [];
    assert RunBatch(Start(b, o), o, steps[..2][..1]) == Batch(b, [Passed]);
    assert RunBatch(Start(b, o), o, steps[..2]) == Batch(AddPayment(b, p, 0), [Inserted]);
    assert RunBatch(Start(b, o), o, steps) == Batch(AddTransaction(AddPayment(b, p, 0), p, 0), [Recorded]);
    PaymentUsage(b, p, 0, "w", 0);
    PaymentUsage(AddPayment(b, p, 0), p, 0, "w", 0);
  }

  // ----- What a creation decides -----

  /** The limits of a wallet, if it has any, leave room for the amount; 0 forbids any transaction but no day. */
  predicate FitsLimits(b: Books, wallet: string, amount: int, startOfDay: int) {
    wallet in b.limits ==>
      && (b.limits[wallet].perTransaction < 0 || amount <= b.limits[wallet].perTransaction)
      && (b.limits[wallet].daily <= 0 || Usage(b, wallet, startOfDay) + amount <= b.limits[wallet].daily)
  }

  /** A check passes exactly if the amount fits, and else names the limit of the two that it looks at first. */
  lemma CheckDecides(b: Books, wallet: string, amount: int, startOfDay: int)
    ensures Check(b, wallet, amount, startOfDay) == Allowed <==> FitsLimits(b, wallet, amount, startOfDay)
    ensures Check(b, wallet, amount, startOfDay) == PerTransactionExceeded <==>
      wallet in b.limits && 0 <= b.limits[wallet].perTransaction < amount
  {
  }

  /**
   * A payment row is written exactly if no payment has the key, the wallets are valid and the limits leave room; with
   * orchestration a transaction row follows, unless that fails. Otherwise the books do not change.
   */
  lemma CreateDecides(b: Books, p: Payment, valid: bool, now: int, startOfDay: int, tx: Orchestration)
    ensures var (b', r) := Create(b, p, valid, now, startOfDay, tx);
      var row := Row(p.wallet, p.amount, now);
      var known := p.idempotencyKey.Some? && p.idempotencyKey.value in b.keys;
      var admitted := !known && valid && FitsLimits(b, p.wallet, p.amount, startOfDay);
      && (r == Created <==> admitted && tx != Fails)
      && (r == TransactionFailed <==> admitted && tx == Fails)
      && (!admitted ==> b' == b)
      && (admitted ==>
            && b'.payments == b.payments + [row]
            && b'.transactions == (if tx == Written then b.transactions + [row] else b.transactions)
            && b'.keys == (if p.idempotencyKey.Some? then b.keys + {p.idempotencyKey.value} else b.keys)
            && b'.limits == b.limits)
      && (r == Existing <==> known && p.idempotencyKey != Some(""))
      && (r == Invalid <==> !valid && (!known || p.idempotencyKey == Some("")))
  {
    CheckDecides(b, p.wallet, p.amount, startOfDay);
  }

  /** The outcome of the i-th step of a run. */
  function OutcomeAt(b: Books, ops: seq<Op>, startOfDay: int, i: nat): Outcome
    requires i < |ops| && ops[i].Pay?
  {
    Create(Run(b, ops[..i], startOfDay), ops[i].payment, ops[i].valid, ops[i].now, startOfDay, ops[i].tx).1
  }

  lemma {:induction false} KeysStay(b: Books, ops: seq<Op>, startOfDay: int, i: nat, j: nat)
    requires i <= j <= |ops|
    ensures Run(b, ops[..i], startOfDay).keys <= Run(b, ops[..j], startOfDay).keys
  {
    if i < j {
      KeysStay(b, ops, startOfDay, i, j - 1);
      assert ops[..j][..j - 1] == ops[..j - 1];
    }
  }

  /**
   * In every run, once a payment with a key has been written, no later payment with that key changes the books: the
   * answer is the existing payment, or a refusal if the key is empty.
   */
  lemma OnePaymentPerKey(b: Books, ops: seq<Op>, startOfDay: int, i: nat, j: nat)
    requires i < j < |ops| && ops[i].Pay? && ops[j].Pay?
    requires ops[i].payment.idempotencyKey.Some? && ops[j].payment.idempotencyKey == ops[i].payment.idempotencyKey
    requires OutcomeAt(b, ops, startOfDay, i) in {Created, TransactionFailed}
    ensures Run(b, ops[..j + 1], startOfDay) == Run(b, ops[..j], startOfDay)
    ensures OutcomeAt(b, ops, startOfDay, j) == Existing <==> ops[i].payment.idempotencyKey != Some("")
    ensures OutcomeAt(b, ops, startOfDay, j) !in {Created, TransactionFailed}
  {
    assert ops[..i + 1][..i] == ops[..i] && ops[..j + 1][..j] == ops[..j];
    var Pay(p, valid, now, tx) := ops[i];
    CreateDecides(Run(b, ops[..i], startOfDay), p, valid, now, startOfDay, tx);
    KeysStay(b, ops, startOfDay, i + 1, j);
    var Pay(q, valid', now', tx') := ops[j];
    CreateDecides(Run(b, ops[..j], startOfDay), q, valid', now', startOfDay, tx');
  }

  /** A creation of a batch that is not interrupted does what a single creation does. */
  lemma UninterruptedCreation(b: Books, p: Payment, valid: bool, now: int, startOfDay: int, written: bool)
    ensures var o := Order([p], startOfDay, true);
      var steps := [CheckOne(0, valid), InsertOne(0, now)] + if written then [RecordOne(0, now)] else [];
      RunBatch(Start(b, o), o, steps).books
        == Create(b, p, valid, now, startOfDay, if written then Written else NotConfigured).0
  {
    var o := Order([p], startOfDay, true);
    var steps := [CheckOne(0, valid), InsertOne(0, now)] + if written then [RecordOne(0, now)] else [];
    assert steps[..1] == [CheckOne(0, valid)] && steps[..1][..0] == [];
    assert steps[..2][..1] == steps[..1] && steps[..|steps|] == steps;
    assert Start(b, o).stages == [Waiting];
    var checked := StepBatch(Start(b, o), o, CheckOne(0, valid));
    assert RunBatch(Start(b, o), o, steps[..1]) == checked;
    var inserted := StepBatch(checked, o, InsertOne(0, now));
    assert RunBatch(Start(b, o), o, steps[..2]) == inserted;
    if written {
      assert steps[..3] == steps && steps[..2] == steps[..|steps| - 1];
      assert RunBatch(Start(b, o), o, steps) == StepBatch(inserted, o, RecordOne(0, now));
    } else {
      assert steps[..2] == steps;
    }
  }
}
