/** The worker pool: round-robin with failover, health memory and a divided time budget. */
module Failover {
  import opened Common
  import opened Arithmetic
  import Words

  type Time = int

  const DEFAULT_BUDGET: int := 100_000_000

  /** How often `m` fits into `a`. */
  function Quotient(a: nat, m: nat): nat
    requires m > 0
  {
    if a < m then 0 else 1 + Quotient(a - m, m)
  }

  lemma {:induction false} QuotientIsDivision(a: nat, m: nat)
    requires m > 0
    ensures Quotient(a, m) == a / m
  {
    if a >= m {
      QuotientIsDivision(a - m, m);
      var q, r := (a - m) / m, (a - m) % m;
      assert a - m == q * m + r;
      assert (q + 1) * m == q * m + m;
      RestIsUnique(a, m, q + 1, r);
      assert a == (a / m) * m + r;
      if a / m < q + 1 { NextProduct(a / m, q + 1, m); }
      if q + 1 < a / m { NextProduct(q + 1, a / m, m); }
    } else {
      RestIsUnique(a, m, 0, a);
    }
  }

  /** Integer division rounding toward zero, for a positive divisor. */
  function Truncated(a: int, m: nat): int
    requires m > 0
  {
    if a >= 0 then Quotient(a, m) else 0 - Quotient(-a, m)
  }

  /** attemptContext: the time given to one attempt. `None` means that only the caller's own
      deadline applies. */
  function Budget(deadline: Option<Time>, now: Time, remaining: nat): Option<int> {
    var share := if remaining < 1 then 1 else remaining;
    match deadline
    case None => Some(DEFAULT_BUDGET)
    case Some(d) => if Truncated(d - now, share) <= 0 then None else Some(Truncated(d - now, share))
  }

  lemma QuotientBounds(a: nat, m: nat)
    requires m > 0
    ensures Quotient(a, m) * m <= a < Quotient(a, m) * m + m
  {
    QuotientIsDivision(a, m);
  }

  lemma AtLeast(a: int, b: int, m: nat)
    requires m > 0 && a >= b * m && b >= 0
    ensures a >= 0 && Quotient(a, m) >= b
  {
    assert b * m >= 0;
    QuotientBounds(a, m);
    if Quotient(a, m) < b {
      NextProduct(Quotient(a, m), b, m);
    }
  }

  /** An attempt that keeps to its budget leaves every later attempt at least as much. */
  lemma NextBudget(d: Time, now: Time, later: Time, remaining: nat)
    requires remaining >= 2 && d - now >= remaining && Kept(d, now, later, remaining)
    ensures Budget(Some(d), now, remaining).Some? && Budget(Some(d), later, remaining - 1).Some?
    ensures Budget(Some(d), now, remaining).value <= Budget(Some(d), later, remaining - 1).value
    ensures d - later >= remaining - 1
  {
    var a := d - now;
    var b := Quotient(a, remaining);
    QuotientBounds(a, remaining);
    AtLeast(a, 1, remaining);
    assert b * remaining == b * (remaining - 1) + b;
    AtLeast(d - later, b, remaining - 1);
    Positive(b, remaining - 1);
  }

  lemma Positive(b: int, m: nat)
    requires b >= 1
    ensures b * m >= m
  {
    assert (b - 1) * m >= 0;
    assert b * m == m + (b - 1) * m;
  }

  /** No attempt is given time past the caller's deadline; an attempt gets a time of its own exactly when
      the time left is worth one tick for each attempt to come, and 100 ms when there is no deadline. */
  lemma DeadlineIsNeverExtended(d: Time, now: Time, remaining: nat)
    ensures Budget(Some(d), now, remaining).Some? ==>
      0 < Budget(Some(d), now, remaining).value && now + Budget(Some(d), now, remaining).value <= d
    ensures Budget(Some(d), now, remaining).Some? <==> d - now >= if remaining < 1 then 1 else remaining
    ensures Budget(None, now, remaining) == Some(100_000_000)
  {
    var share := if remaining < 1 then 1 else remaining;
    if d - now >= share { AtLeast(d - now, 1, share); }
    if d >= now {
      QuotientBounds(d - now, share);
      var b := Quotient(d - now, share);
      assert b * share >= b by { if b >= 0 { assert b * (share - 1) >= 0; assert b * share == b + b * (share - 1); } }
    }
  }

  /** Until when each worker counts as down. */
  type Health = map<nat, Time>

  /** What the outside world does around one attempt. Every access to the health memory is one locked
      step, and other requests may have changed the memory in any way before it. */
  datatype Visit = Visit(
    now: Time,               // when the attempt starts
    probeAt: Time,           // when the health memory is consulted
    healthy: bool,           // the worker's answer to a probe
    answer: Option<nat>,     // the worker's result; None is an error
    alive: bool,             // the caller's context after an error
    markAt: Time,            // when a failure is recorded
    before: Health -> Health, // what other requests do to the health memory before it is consulted,
    during: Health -> Health, // while the worker is probed,
    after: Health -> Health)  // and while it works

  /** Every attempt of a request ends within its budget. */
  ghost predicate KeepsBudgets(d: Time, world: seq<Visit>) {
    forall k {:trigger world[k]} :: 0 <= k < |world| - 1 ==> Kept(d, world[k].now, world[k + 1].now, |world| - k)
  }

  ghost predicate Kept(d: Time, now: Time, later: Time, remaining: nat) {
    now <= later && (Budget(Some(d), now, remaining).Some? ==> later <= now + Budget(Some(d), now, remaining).value)
  }

  /** What one attempt is offered is at least `least`. */
  ghost predicate Offers(d: Time, now: Time, remaining: nat, least: int) {
    Budget(Some(d), now, remaining).Some? && Budget(Some(d), now, remaining).value >= least
  }

  lemma FirstOffer(d: Time, now: Time, n: nat)
    requires n > 0 && d - now >= n
    ensures Offers(d, now, n, Quotient(d - now, n))
  {
    AtLeast(d - now, 1, n);
  }

  lemma NextOffer(d: Time, now: Time, later: Time, remaining: nat, least: int)
    requires remaining >= 2 && d - now >= remaining && Kept(d, now, later, remaining) && Offers(d, now, remaining, least)
    ensures Offers(d, later, remaining - 1, least) && d - later >= remaining - 1
    ensures Offers(d, later, remaining - 1, Budget(Some(d), now, remaining).value)
  {
    NextBudget(d, now, later, remaining);
  }

  /** Failover budgets: with at least one tick per worker at the start, and attempts that keep to
      what they are given, budgets never shrink, so each worker is offered at least an equal share
      of the initial time. */
  lemma {:induction false} BudgetsNeverShrink(d: Time, world: seq<Visit>, k: nat)
    requires k < |world| && d - world[0].now >= |world| && KeepsBudgets(d, world)
    ensures d - world[k].now >= |world| - k
    ensures Offers(d, world[k].now, |world| - k, Quotient(d - world[0].now, |world|))
    ensures k > 0 ==> Budget(Some(d), world[k - 1].now, |world| - (k - 1)).Some?
                      && Offers(d, world[k].now, |world| - k, Budget(Some(d), world[k - 1].now, |world| - (k - 1)).value)
    decreases k
  {
    if k == 0 {
      FirstOffer(d, world[0].now, |world|);
    } else {
      BudgetsNeverShrink(d, world, k - 1);
      assert Kept(d, world[k - 1].now, world[k - 1 + 1].now, |world| - (k - 1));
      NextOffer(d, world[k - 1].now, world[k].now, |world| - (k - 1), Quotient(d - world[0].now, |world|));
    }
  }

  // ----- the rotation ---------------------------------------------------------------------

  function Turn(start: nat, k: nat, n: nat): nat
    requires n > 0
  {
    (start + k) % n
  }

  /** `n` successive turns visit every worker exactly once. */
  lemma RotationVisitsEachOnce(start: nat, n: nat, i: nat) returns (k: nat)
    requires start < n && i < n
    ensures k < n && Turn(start, k, n) == i
    ensures forall j :: 0 <= j < n && Turn(start, j, n) == i ==> j == k
  {
    k := if i >= start then i - start else i + n - start;
    forall j | 0 <= j < n && Turn(start, j, n) == i ensures j == k {
      TurnIs(start, j, n);
    }
    TurnIs(start, k, n);
  }

  lemma TurnIs(start: nat, k: nat, n: nat)
    requires start < n && k < n
    ensures Turn(start, k, n) == if start + k < n then start + k else start + k - n
  {
    if start + k < n {
      RestIsUnique(start + k, n, 0, start + k);
    } else {
      RestIsUnique(start + k, n, 1, start + k - n);
    }
  }

  // ----- one request ----------------------------------------------------------------------

  /** Whether a worker may be tried, given what the health memory shows of it. */
  predicate Available(seen: Health, i: nat, v: Visit) {
    i !in seen || (v.probeAt >= seen[i] && v.healthy)
  }

  /** The health memory after the look-up and a probe, if one was due. */
  function LookedUp(seen: Health, i: nat, v: Visit, probeEvery: int): Health {
    if i !in seen || v.probeAt < seen[i] then seen
    else if v.healthy then v.during(seen) - {i}
    else v.during(seen)[i := v.markAt + probeEvery]
  }

  /** The health memory after a visit to worker `i`. */
  function Remember(down: Health, i: nat, v: Visit, probeEvery: int): Health {
    var seen := v.before(down);
    var looked := LookedUp(seen, i, v, probeEvery);
    if Available(seen, i, v) && v.answer.None? && v.alive then v.after(looked)[i := v.markAt + probeEvery] else looked
  }

  /** The memory after the first `k` visits. */
  function Memory(down: Health, start: nat, world: seq<Visit>, k: nat, probeEvery: int): Health
    requires k <= |world|
  {
    if k == 0 then down
    else Remember(Memory(down, start, world, k - 1, probeEvery), Turn(start, k - 1, |world|), world[k - 1], probeEvery)
  }

  /** The k-th visit finds its worker available and gets an answer. */
  ghost predicate Answers(down: Health, start: nat, world: seq<Visit>, k: nat, probeEvery: int)
    requires k < |world|
  {
    Available(world[k].before(Memory(down, start, world, k, probeEvery)), Turn(start, k, |world|), world[k]) && world[k].answer.Some?
  }

  // ----- down workers over many requests ---------------------------------------------------

  /** One attempt at one worker, of whatever request. */
  datatype Round = Round(worker: nat, visit: Visit)

  /** The health memory after the first `k` rounds of a new pool. */
  function MemoryAt(rounds: seq<Round>, k: nat, probeEvery: int): Health
    requires k <= |rounds|
  {
    if k == 0 then map[]
    else Remember(MemoryAt(rounds, k - 1, probeEvery), rounds[k - 1].worker, rounds[k - 1].visit, probeEvery)
  }

  /** Nobody else touches the memory during the visit, and its clock readings are in order. */
  ghost predicate Undisturbed(v: Visit) {
    && (forall h: Health {:trigger v.before(h)} :: v.before(h) == h)
    && (forall h: Health {:trigger v.during(h)} :: v.during(h) == h)
    && (forall h: Health {:trigger v.after(h)} :: v.after(h) == h)
    && v.probeAt <= v.markAt
  }

  ghost predicate OneByOne(rounds: seq<Round>) {
    forall k {:trigger rounds[k]} :: 0 <= k < |rounds| ==> Undisturbed(rounds[k].visit)
  }

  /** The k-th round lets its worker answer the request. */
  predicate Tried(rounds: seq<Round>, k: nat, probeEvery: int)
    requires k < |rounds|
  {
    Available(rounds[k].visit.before(MemoryAt(rounds, k, probeEvery)), rounds[k].worker, rounds[k].visit)
  }

  /** The k-th round ends with an error that is the worker's fault. */
  predicate Fails(rounds: seq<Round>, k: nat, probeEvery: int)
    requires k < |rounds|
  {
    Tried(rounds, k, probeEvery) && rounds[k].visit.answer.None? && rounds[k].visit.alive
  }

  /** The k-th round probes its worker, which does not answer well. */
  predicate ProbeFails(rounds: seq<Round>, k: nat, probeEvery: int)
    requires k < |rounds|
  {
    var seen, v := rounds[k].visit.before(MemoryAt(rounds, k, probeEvery)), rounds[k].visit;
    rounds[k].worker in seen && v.probeAt >= seen[rounds[k].worker] && !v.healthy
  }

  /** Some round after `j` and before `k` probed worker `i` at or after `due` and found it healthy. */
  ghost predicate Recovered(rounds: seq<Round>, i: nat, due: Time, j: nat, k: nat) {
    exists l {:trigger rounds[l]} :: j < l < k && l < |rounds| && rounds[l].worker == i && rounds[l].visit.probeAt >= due && rounds[l].visit.healthy
  }

  /** A worker that failed a request or a probe is left alone for the probe interval: whenever it is tried
      again, it has by then answered a healthy probe made no earlier than the interval after its failure
      was recorded. */
  lemma {:induction false} FailedWorkersRest(rounds: seq<Round>, j: nat, k: nat, probeEvery: int)
    requires OneByOne(rounds) && probeEvery > 0 && j < k < |rounds| && rounds[k].worker == rounds[j].worker
    requires Fails(rounds, j, probeEvery) || ProbeFails(rounds, j, probeEvery)
    ensures Tried(rounds, k, probeEvery) ==>
      Recovered(rounds, rounds[j].worker, rounds[j].visit.markAt + probeEvery, j, k + 1)
  {
    StaysDown(rounds, j, k, probeEvery);
    assert Undisturbed(rounds[k].visit);
    if Tried(rounds, k, probeEvery) && !Recovered(rounds, rounds[j].worker, rounds[j].visit.markAt + probeEvery, j, k) {
      assert rounds[k].visit.probeAt >= rounds[j].visit.markAt + probeEvery && rounds[k].visit.healthy;
    } else if Recovered(rounds, rounds[j].worker, rounds[j].visit.markAt + probeEvery, j, k) {
      var l :| j < l < k && l < |rounds| && rounds[l].worker == rounds[j].worker
               && rounds[l].visit.probeAt >= rounds[j].visit.markAt + probeEvery && rounds[l].visit.healthy;
      assert j < l < k + 1;
    }
  }

  lemma {:induction false} StaysDown(rounds: seq<Round>, j: nat, k: nat, probeEvery: int)
    requires OneByOne(rounds) && probeEvery > 0 && j < k <= |rounds|
    requires Fails(rounds, j, probeEvery) || ProbeFails(rounds, j, probeEvery)
    ensures var i, due := rounds[j].worker, rounds[j].visit.markAt + probeEvery;
            || Recovered(rounds, i, due, j, k)
            || (i in MemoryAt(rounds, k, probeEvery) && MemoryAt(rounds, k, probeEvery)[i] >= due)
    decreases k
  {
    var i, due, v := rounds[j].worker, rounds[j].visit.markAt + probeEvery, rounds[k - 1].visit;
    assert Undisturbed(v);
    if k - 1 > j {
      StaysDown(rounds, j, k - 1, probeEvery);
      if Recovered(rounds, i, due, j, k - 1) {
        var l :| j < l < k - 1 && l < |rounds| && rounds[l].worker == i && rounds[l].visit.probeAt >= due && rounds[l].visit.healthy;
        assert j < l < k;
      } else if rounds[k - 1].worker == i && v.probeAt >= due && v.healthy {
        assert j < k - 1 < k;
      }
    }
  }

  /** A worker is not given up without reason: one that has not failed in any earlier round is tried. */
  lemma BlamelessWorkersAreTried(rounds: seq<Round>, k: nat, probeEvery: int)
    requires OneByOne(rounds) && k < |rounds|
    requires forall j {:trigger rounds[j]} :: 0 <= j < k && rounds[j].worker == rounds[k].worker ==> !Fails(rounds, j, probeEvery)
    ensures Tried(rounds, k, probeEvery)
  {
    BlamelessIsUp(rounds, k, rounds[k].worker, probeEvery);
    assert Undisturbed(rounds[k].visit);
  }

  lemma {:induction false} BlamelessIsUp(rounds: seq<Round>, k: nat, i: nat, probeEvery: int)
    requires OneByOne(rounds) && k <= |rounds|
    requires forall j {:trigger rounds[j]} :: 0 <= j < k && rounds[j].worker == i ==> !Fails(rounds, j, probeEvery)
    ensures i !in MemoryAt(rounds, k, probeEvery)
    decreases k
  {
    if k > 0 {
      BlamelessIsUp(rounds, k - 1, i, probeEvery);
      assert Undisturbed(rounds[k - 1].visit);
    }
  }

  /** A worker comes back: after a round in which it was tried and did not fail, it is tried again in
      its next round, whatever a probe would say; and one that failed the request or a probe is tried in
      its next round exactly when that comes after the interval and the probe is healthy. */
  lemma NextRound(rounds: seq<Round>, j: nat, k: nat, probeEvery: int)
    requires OneByOne(rounds) && j < k < |rounds| && rounds[k].worker == rounds[j].worker
    requires Tried(rounds, j, probeEvery) || ProbeFails(rounds, j, probeEvery)
    requires forall l {:trigger rounds[l]} :: j < l < k ==> rounds[l].worker != rounds[j].worker
    ensures Tried(rounds, k, probeEvery) <==>
      || (Tried(rounds, j, probeEvery) && !Fails(rounds, j, probeEvery))
      || (rounds[k].visit.probeAt >= rounds[j].visit.markAt + probeEvery && rounds[k].visit.healthy)
  {
    assert Undisturbed(rounds[j].visit) && Undisturbed(rounds[k].visit);
    OtherRoundsLeave(rounds, rounds[j].worker, j + 1, k, probeEvery);
  }

  lemma {:induction false} OtherRoundsLeave(rounds: seq<Round>, i: nat, from: nat, k: nat, probeEvery: int)
    requires OneByOne(rounds) && from <= k <= |rounds|
    requires forall l {:trigger rounds[l]} :: from <= l < k ==> rounds[l].worker != i
    ensures i in MemoryAt(rounds, k, probeEvery) <==> i in MemoryAt(rounds, from, probeEvery)
    ensures i in MemoryAt(rounds, k, probeEvery) ==> MemoryAt(rounds, k, probeEvery)[i] == MemoryAt(rounds, from, probeEvery)[i]
    decreases k
  {
    if from < k {
      OtherRoundsLeave(rounds, i, from, k - 1, probeEvery);
      assert Undisturbed(rounds[k - 1].visit) && rounds[k - 1].worker != i;
    }
  }

  class Pool {
    const count: nat
    const probeEvery: int
    var next: nat
    var down: Health

    ghost predicate Valid()
      reads this
    {
      count > 0 && probeEvery > 0 && next < Words.WORD
    }

    constructor (count: nat, probeEvery: int)
      requires count > 0
      ensures Valid() && next == 0 && down == map[] && this.count == count
      ensures this.probeEvery == if probeEvery <= 0 then 1_000_000_000 else probeEvery
    {
      this.count := count;
      this.probeEvery := if probeEvery <= 0 then 1_000_000_000 else probeEvery;
      next, down := 0, map[];
    }

    /** markDown. */
    method MarkDown(i: nat, at: Time)
      modifies this`down
      ensures down == old(down)[i := at + probeEvery]
    {
      down := down[i := at + probeEvery];
    }

    /** available. */
    method IsAvailable(i: nat, v: Visit) returns (ok: bool)
      modifies this`down
      ensures ok == Available(v.before(old(down)), i, v)
      ensures down == LookedUp(v.before(old(down)), i, v, probeEvery)
    {
      down := v.before(down);
      if i !in down { return true; }
      if v.probeAt < down[i] { return false; }
      down := v.during(down);
      if !v.healthy {
        MarkDown(i, v.markAt);
        return false;
      }
      down := down - {i};
      return true;
    }

    /** One turn of the rotation: the worker is tried if it is available. */
    method Try(i: nat, v: Visit) returns (answer: Option<nat>)
      modifies this`down
      ensures down == Remember(old(down), i, v, probeEvery)
      ensures answer == if Available(v.before(old(down)), i, v) then v.answer else None
    {
      var ok := IsAvailable(i, v);
      if !ok { return None; }
      if v.answer.None? && v.alive {
        down := v.after(down);
        MarkDown(i, v.markAt);
      }
      return v.answer;
    }

    /** Infer: the answer is that of the first worker in rotation that is available and answers; a
        failure means that every worker has had its turn. Each attempt gets its share of the time left. */
    method Infer(world: seq<Visit>, deadline: Option<Time>) returns (result: Option<nat>, visits: nat, budgets: seq<Option<int>>)
      requires Valid() && |world| == count
      modifies this
      ensures Valid() && next == Successor(old(next))
      ensures visits <= count && (result.None? ==> visits == count)
      ensures forall k :: 0 <= k < visits && (result.None? || k < visits - 1) ==>
                !Answers(old(down), old(next) % count, world, k, probeEvery)
      ensures result.Some? ==> visits > 0 && Answers(old(down), old(next) % count, world, visits - 1, probeEvery)
                               && result == world[visits - 1].answer
      ensures down == Memory(old(down), old(next) % count, world, visits, probeEvery)
      ensures Shared(budgets, deadline, world, visits)
    {
      var start := next % count;
      next := Successor(next);
      budgets := [];
      for offset := 0 to count
        invariant Valid() && next == Successor(old(next))
        invariant down == Memory(old(down), start, world, offset, probeEvery)
        invariant forall k :: 0 <= k < offset ==> !Answers(old(down), start, world, k, probeEvery)
        invariant Shared(budgets, deadline, world, offset)
      {
        budgets := GiveBudget(budgets, deadline, world, offset);
        result := Try(Turn(start, offset, count), world[offset]);
        if result.Some? { return result, offset + 1, budgets; }
      }
      return None, count, budgets;
    }
  }

  /** The counter of requests is a 64-bit word. */
  function Successor(n: nat): nat {
    if n + 1 == Words.WORD then 0 else n + 1
  }

  /** The first `n` attempts got their shares of the time left at their starts. */
  ghost predicate Shared(budgets: seq<Option<int>>, deadline: Option<Time>, world: seq<Visit>, n: nat) {
    && |budgets| == n <= |world|
    && forall k {:trigger budgets[k]} :: 0 <= k < n ==> budgets[k] == Budget(deadline, world[k].now, |world| - k)
  }

  method GiveBudget(budgets: seq<Option<int>>, deadline: Option<Time>, world: seq<Visit>, n: nat) returns (more: seq<Option<int>>)
    requires Shared(budgets, deadline, world, n) && n < |world|
    ensures Shared(more, deadline, world, n + 1)
  {
    more := budgets + [Budget(deadline, world[n].now, |world| - n)];
  }
}
