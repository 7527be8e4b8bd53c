/**
 * Requests of one stream in one window whose checks overlap: each check first finds the record and later writes
 * it, and a check of a later window or a cleanup may purge the record while checks of this window are still under
 * way. The calls of a stream are alike, so a state counts the calls that are between their find and their write.
 */
module Overlap {
  import opened Prelude
  import RateLimit

  /**
   * The stored count; the calls about to create the record, about to count themselves in it, and about to count
   * themselves in a record that is gone; the calls admitted; the most calls that have been between find and write at
   * once; and how often a record was purged.
   */
  datatype Window = Window(
    record: Option<nat>, creating: nat, counting: nat, stranded: nat, admitted: nat, peak: nat, purges: nat)

  /** A database call that answers or fails; a failing one refuses the request. */
  datatype Step = Find(ok: bool) | Create(ok: bool) | Count(ok: bool) | Strand | Purge

  function Seen(w: Window): Window {
    w.(peak := Max(w.peak, w.creating + w.counting + w.stranded))
  }

  /**
   * The record is unique, so only the first of several creations succeeds. Counting is an atomic increment of a record
   * by its id, which fails (`Strand`) once that record is purged, even if there is a new one.
   */
  function Apply(w: Window, m: int, step: Step): Window {
    match step
    case Find(ok) =>
      if !ok then w
      else if w.record == None then Seen(w.(creating := w.creating + 1))
      else if w.record.value >= m then w
      else Seen(w.(counting := w.counting + 1))
    case Create(ok) =>
      if w.creating == 0 then w
      else if !ok || w.record.Some? then w.(creating := w.creating - 1)
      else w.(creating := w.creating - 1, record := Some(1), admitted := w.admitted + 1)
    case Count(ok) =>
      if w.counting == 0 then w
      else if !ok || w.record == None then w.(counting := w.counting - 1)
      else w.(counting := w.counting - 1, record := Some(w.record.value + 1), admitted := w.admitted + 1)
    case Strand =>
      if w.stranded == 0 then w else w.(stranded := w.stranded - 1)
    case Purge =>
      if w.record == None then w
      else w.(record := None, counting := 0, stranded := w.stranded + w.counting, purges := w.purges + 1)
  }

  function Run(w: Window, m: int, steps: seq<Step>): Window {
    if steps == [] then w else Apply(Run(w, m, steps[..|steps| - 1]), m, steps[|steps| - 1])
  }

  const Fresh := Window(None, 0, 0, 0, 0, 0, 0)

  /** How many requests one record can admit when up to k checks overlap. */
  function Most(m: int, k: nat): nat {
    if m <= 1 then Min(1, k) else if k == 0 then 0 else m + k - 1
  }

  /** The requests that the present record has admitted. */
  function Current(w: Window): nat {
    if w.record.Some? then w.record.value else 0
  }

  ghost predicate Inv(w: Window, m: int) {
    && w.creating + w.counting + w.stranded <= w.peak
    && (w.record == None ==> w.counting == 0)
    && (w.record.Some? ==> w.record.value >= 1 && w.peak >= 1)
    && (w.counting > 0 ==> m > 1)
    && Current(w) + w.counting <= Most(m, w.peak)
  }

  lemma ApplyKeeps(w: Window, m: int, step: Step)
    requires Inv(w, m)
    ensures Inv(Apply(w, m, step), m)
  {
  }

  /** The requests admitted by purged records. */
  function Past(w: Window): int {
    w.admitted - Current(w)
  }

  /** A purge closes the account of one record, every other step leaves the past alone. */
  lemma PastStep(w: Window, m: int, step: Step)
    requires Inv(w, m)
    ensures var w' := Apply(w, m, step);
      && w.peak <= w'.peak
      && ((w'.purges == w.purges && Past(w') == Past(w))
          || (w'.purges == w.purges + 1 && Past(w') == Past(w) + Current(w)))
  {
  }

  lemma Grown(n: nat, a: nat, b: nat)
    requires a <= b
    ensures n * a <= n * b && (n + 1) * b == n * b + b
  {
    assert n * (b - a) >= 0;
  }

  /** The arithmetic of one step: at most one more record, and room for its requests. */
  lemma Carry(past: int, past': int, current: nat, n: nat, n': nat, a: nat, b: nat)
    requires past <= n * a && current <= a <= b
    requires (n' == n && past' == past) || (n' == n + 1 && past' == past + current)
    ensures past' <= n' * b
  {
    Grown(n, a, b);
  }

  lemma {:induction false} PastBound(m: int, steps: seq<Step>)
    ensures var w := Run(Fresh, m, steps);
      Inv(w, m) && Past(w) <= w.purges * Most(m, w.peak)
  {
    if steps != [] {
      var w, w' := Run(Fresh, m, steps[..|steps| - 1]), Run(Fresh, m, steps);
      PastBound(m, steps[..|steps| - 1]);
      ApplyKeeps(w, m, steps[|steps| - 1]);
      PastStep(w, m, steps[|steps| - 1]);
      Carry(Past(w), Past(w'), Current(w), w.purges, w'.purges, Most(m, w.peak), Most(m, w'.peak));
    }
  }

  /**
   * Whatever the schedule, the failures and the purges, a window in which at most k checks overlap admits, with each of
   * its purges + 1 records, at most limit + k - 1 requests, and at most one if the limit is at most one.
   */
  lemma OverlapBound(m: int, steps: seq<Step>)
    ensures var w := Run(Fresh, m, steps);
      && w.admitted <= (w.purges + 1) * Most(m, w.peak)
      && (w.purges == 0 ==> w.admitted <= Most(m, w.peak))
  {
    PastBound(m, steps);
    var w := Run(Fresh, m, steps);
    OneMore(Past(w), Current(w), w.purges, Most(m, w.peak));
  }

  lemma OneMore(past: int, current: nat, n: nat, most: nat)
    requires past <= n * most && current <= most
    ensures past + current <= (n + 1) * most && (n == 0 ==> past + current <= most)
  {
    Grown(n, most, most);
  }

  // ----- The bound is reached -----

  lemma {:induction false} RunConcat(w: Window, m: int, a: seq<Step>, b: seq<Step>)
    ensures Run(w, m, a + b) == Run(Run(w, m, a), m, b)
  {
    if b == [] {
      assert a + b == a;
    } else {
      var n := |b| - 1;
      RunConcat(w, m, a, b[..n]);
      assert (a + b)[..|a + b| - 1] == a + b[..n];
    }
  }

  function Repeat(step: Step, n: nat): (steps: seq<Step>)
    ensures |steps| == n
  {
    seq(n, _ => step)
  }

  lemma {:induction false} Finds(w: Window, m: int, n: nat)
    requires w.record.Some? && w.record.value < m && w.creating + w.counting + w.stranded <= w.peak
    ensures Run(w, m, Repeat(Find(true), n))
      == w.(counting := w.counting + n, peak := Max(w.peak, w.creating + w.counting + w.stranded + n))
  {
    if n > 0 {
      Finds(w, m, n - 1);
      assert Repeat(Find(true), n)[..n - 1] == Repeat(Find(true), n - 1);
    }
  }

  lemma {:induction false} Counts(w: Window, m: int, n: nat)
    requires w.record.Some? && n <= w.counting
    ensures Run(w, m, Repeat(Count(true), n))
      == w.(counting := w.counting - n, record := Some(w.record.value + n), admitted := w.admitted + n)
  {
    if n > 0 {
      Counts(w, m, n - 1);
      assert Repeat(Count(true), n)[..n - 1] == Repeat(Count(true), n - 1);
    }
  }

  /** Nobody is between find and write. */
  function Idle(record: Option<nat>, admitted: nat, peak: nat, purges: nat): Window {
    Window(record, 0, 0, 0, admitted, peak, purges)
  }

  lemma Chain(w: Window, m: int, a: seq<Step>, w1: Window, b: seq<Step>, w2: Window)
    requires Run(w, m, a) == w1 && Run(w1, m, b) == w2
    ensures Run(w, m, a + b) == w2
  {
    RunConcat(w, m, a, b);
  }

  /** k checks that find the same count and are then all admitted. */
  lemma Rush(n: nat, m: int, k: nat, admitted: nat, peak: nat, purges: nat) returns (steps: seq<Step>)
    requires n < m
    ensures Run(Idle(Some(n), admitted, peak, purges), m, steps)
      == Idle(Some(n + k), admitted + k, Max(peak, k), purges)
  {
    var w := Idle(Some(n), admitted, peak, purges);
    var w1 := w.(counting := k, peak := Max(peak, k));
    Finds(w, m, k);
    Counts(w1, m, k);
    steps := Repeat(Find(true), k) + Repeat(Count(true), k);
    Chain(w, m, Repeat(Find(true), k), w1, Repeat(Count(true), k), Run(w1, m, Repeat(Count(true), k)));
  }

  /** The first check creates the record. */
  lemma First(m: int, admitted: nat, peak: nat, purges: nat) returns (steps: seq<Step>)
    ensures steps == [Find(true), Create(true)]
    ensures Run(Idle(None, admitted, peak, purges), m, steps) == Idle(Some(1), admitted + 1, Max(peak, 1), purges)
  {
    var w := Idle(None, admitted, peak, purges);
    steps := [Find(true), Create(true)];
    assert steps[..1] == [Find(true)] && steps[..1][..0] == [];
    assert Run(w, m, steps[..1]) == w.(creating := 1, peak := Max(peak, 1));
  }

  /** Checks that come one at a time. */
  lemma {:induction false} Serial(m: int, n: nat, admitted: nat, peak: nat, purges: nat) returns (steps: seq<Step>)
    requires n >= 1 && (n == 1 || n <= m)
    ensures Run(Idle(None, admitted, peak, purges), m, steps) == Idle(Some(n), admitted + n, Max(peak, 1), purges)
    decreases n
  {
    if n == 1 {
      steps := First(m, admitted, peak, purges);
    } else {
      var p := Max(peak, 1);
      var a := Serial(m, n - 1, admitted, peak, purges);
      var b := Rush(n - 1, m, 1, admitted + n - 1, p, purges);
      Chain(Idle(None, admitted, peak, purges), m, a, Idle(Some(n - 1), admitted + n - 1, p, purges), b,
            Idle(Some(n), admitted + n, p, purges));
      steps := a + b;
    }
  }

  /** As many requests as one record admits with k overlapping checks. */
  lemma Fill(m: int, k: nat, admitted: nat, peak: nat, purges: nat) returns (steps: seq<Step>)
    requires k >= 1 && peak <= k && (m >= 2 || k == 1)
    ensures Run(Idle(None, admitted, peak, purges), m, steps)
      == Idle(Some(Most(m, k)), admitted + Most(m, k), k, purges)
  {
    if m <= 1 {
      steps := First(m, admitted, peak, purges);
    } else {
      var n, p := m - 1, Max(peak, 1);
      var a := Serial(m, n, admitted, peak, purges);
      var b := Rush(n, m, k, admitted + n, p, purges);
      Chain(Idle(None, admitted, peak, purges), m, a, Idle(Some(n), admitted + n, p, purges), b,
            Idle(Some(n + k), admitted + n + k, k, purges));
      steps := a + b;
    }
  }

  /** The record is purged and filled again. */
  lemma Refill(m: int, k: nat, admitted: nat, purges: nat) returns (steps: seq<Step>)
    requires k >= 1 && (m >= 2 || k == 1)
    ensures Run(Idle(Some(Most(m, k)), admitted, k, purges), m, steps)
      == Idle(Some(Most(m, k)), admitted + Most(m, k), k, purges + 1)
  {
    var w, w1 := Idle(Some(Most(m, k)), admitted, k, purges), Idle(None, admitted, k, purges + 1);
    assert [Purge][..0] == [] && Run(w, m, [Purge]) == w1;
    var b := Fill(m, k, admitted, k, purges + 1);
    Chain(w, m, [Purge], w1, b, Idle(Some(Most(m, k)), admitted + Most(m, k), k, purges + 1));
    steps := [Purge] + b;
  }

  /** n times the most. */
  function Times(n: nat, most: nat): nat {
    if n == 0 then 0 else Times(n - 1, most) + most
  }

  lemma {:induction false} TimesIsProduct(n: nat, most: nat)
    ensures Times(n, most) == n * most
  {
    if n > 0 {
      TimesIsProduct(n - 1, most);
      Grown(n - 1, most, most);
    }
  }

  lemma {:induction false} FillAll(m: int, k: nat, n: nat) returns (steps: seq<Step>)
    requires k >= 1 && (m >= 2 || k == 1)
    ensures Run(Fresh, m, steps) == Idle(Some(Most(m, k)), Times(n + 1, Most(m, k)), k, n)
    decreases n
  {
    var most := Most(m, k);
    if n == 0 {
      steps := Fill(m, k, 0, 0, 0);
    } else {
      var a := FillAll(m, k, n - 1);
      var b := Refill(m, k, Times(n, most), n - 1);
      Chain(Fresh, m, a, Idle(Some(most), Times(n, most), k, n - 1), b, Idle(Some(most), Times(n + 1, most), k, n));
      steps := a + b;
    }
  }

  /**
   * The bound is met, for every limit, every k >= 1 and any number of purges, by a schedule with k overlapping checks
   * (one at a time if the limit is at most one, where more make no difference).
   */
  lemma BoundIsReached(m: int, k: nat, n: nat) returns (steps: seq<Step>)
    requires k >= 1 && (m >= 2 || k == 1)
    ensures var w := Run(Fresh, m, steps);
      w.admitted == (n + 1) * Most(m, k) && w.peak == k && w.purges == n
  {
    steps := FillAll(m, k, n);
    TimesIsProduct(n + 1, Most(m, k));
  }

  /** A purge, and then the next check creates the record again. */
  lemma Again(m: int, n: nat, admitted: nat, purges: nat) returns (steps: seq<Step>)
    ensures steps == [Purge, Find(true), Create(true)]
    ensures Run(Idle(Some(n), admitted, 1, purges), m, steps) == Idle(Some(1), admitted + 1, 1, purges + 1)
  {
    var w, w1 := Idle(Some(n), admitted, 1, purges), Idle(None, admitted, 1, purges + 1);
    assert [Purge][..0] == [] && Run(w, m, [Purge]) == w1;
    var b := First(m, admitted, 1, purges + 1);
    Chain(w, m, [Purge], w1, b, Idle(Some(1), admitted + 1, 1, purges + 1));
    steps := [Purge] + b;
  }

  /** The smallest case: a limit of one, one check at a time and one purge, and two requests are admitted. */
  lemma PurgeAdmitsTwice() returns (first: seq<Step>, second: seq<Step>)
    ensures first == [Find(true), Create(true)] && second == [Purge, Find(true), Create(true)]
    ensures Run(Fresh, 1, first + second) == Idle(Some(1), 2, 1, 1) && Most(1, 1) == 1
  {
    first := First(1, 0, 0, 0);
    second := Again(1, 1, 1, 0);
    Chain(Fresh, 1, first, Idle(Some(1), 1, 1, 0), second, Idle(Some(1), 2, 1, 1));
  }

  // ----- Checks that do not overlap -----

  /**
   * A check whose find and write are not interrupted does to its record what `RateLimit.Check` does, and is admitted
   * exactly if that allows it.
   */
  lemma UninterruptedCheck(
      t: RateLimit.Table, key: string, endpoint: string, w: int, m: int, now: int,
      admitted: nat, peak: nat, purges: nat)
    requires w > 0
    ensures var slot := RateLimit.Slot(key, endpoint, RateLimit.WindowStart(now, w));
      var (t', v) := RateLimit.Check(t, key, endpoint, w, m, now, RateLimit.Healthy);
      var before := Idle(StoredCount(t, slot), admitted, peak, purges);
      var found := Apply(before, m, Find(true));
      var after := Apply(found, m, if slot in t then Count(true) else Create(true));
      after == Idle(StoredCount(t', slot), admitted + (if v.allowed then 1 else 0), after.peak, purges)
  {
  }

  function StoredCount(t: RateLimit.Table, slot: RateLimit.Slot): Option<nat> {
    if slot in t then Some(t[slot]) else None
  }
}
