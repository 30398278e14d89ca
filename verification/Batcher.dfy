/** The daemon's staging batcher: a fixed array filled from the ring and handed on when it is full
    or its first entry is overdue. */
module Batcher {

  /** A consumed slot: its position and the time its producer stamped on it. */
  datatype Staged = Staged(position: nat, enqueueNs: nat)

  const CAPACITY: nat := 256

  function Flatten(batches: seq<seq<Staged>>): seq<Staged> {
    if batches == [] then [] else Flatten(batches[..|batches| - 1]) + batches[|batches| - 1]
  }

  lemma FlattenAppend(batches: seq<seq<Staged>>, b: seq<Staged>)
    ensures Flatten(batches + [b]) == Flatten(batches) + b
  {
    assert (batches + [b])[..|batches|] == batches;
  }

  predicate Overdue(oldest: nat, now: nat, deadline: nat) {
    now >= oldest && now - oldest >= deadline
  }

  function Least(a: nat, b: nat): nat {
    if a < b then a else b
  }

  /** Staged slots that a poll keeps back at clock reading `now`: a batch that is not full and whose
      first slot is not overdue. */
  predicate Waits(staged: seq<Staged>, maxBatch: nat, deadline: nat, now: nat) {
    0 < |staged| < maxBatch && !Overdue(staged[0].enqueueNs, now, deadline)
  }

  ghost predicate NoneOverdue(staged: seq<Staged>, deadline: nat, now: nat) {
    forall i {:trigger staged[i]} :: 0 <= i < |staged| ==> !Overdue(staged[i].enqueueNs, now, deadline)
  }

  /** At every clock reading at which the batch waits, none of its slots is overdue. */
  ghost predicate WaitingMeansNoneOverdue(staged: seq<Staged>, maxBatch: nat, deadline: nat) {
    forall now: nat {:trigger Waits(staged, maxBatch, deadline, now)} ::
      Waits(staged, maxBatch, deadline, now) ==> NoneOverdue(staged, deadline, now)
  }

  /** The first staged slot stands for all of them exactly when none has an earlier stamp. */
  lemma OldestIsFirstExactly(staged: seq<Staged>, maxBatch: nat, deadline: nat)
    requires 0 < |staged| < maxBatch
    ensures WaitingMeansNoneOverdue(staged, maxBatch, deadline) <==>
            forall i {:trigger staged[i]} :: 0 <= i < |staged| ==> staged[0].enqueueNs <= staged[i].enqueueNs
  {
    if WaitingMeansNoneOverdue(staged, maxBatch, deadline) {
      forall i | 0 <= i < |staged| ensures staged[0].enqueueNs <= staged[i].enqueueNs {
        if staged[i].enqueueNs < staged[0].enqueueNs {
          assert Waits(staged, maxBatch, deadline, staged[i].enqueueNs + deadline);
        }
      }
    }
  }

  /** The input on which it fails: stamps are taken before positions are claimed, so a slot staged
      second may be older, and is overdue while the batch waits. */
  lemma LaterSlotIsMissed(deadline: nat)
    requires deadline > 0
    ensures var staged := [Staged(0, 1), Staged(1, 0)];
            Waits(staged, 32, deadline, deadline) && Overdue(staged[1].enqueueNs, deadline, deadline)
  {
  }

  class ContinuousBatcher {
    const maxBatch: nat
    const deadline: nat
    const wired: bool                      // clock and handler are present
    const slots: array<Staged>
    var count: nat
    var oldest: nat
    var deadlineBatches: nat
    var fullBatches: nat
    var requests: nat
    ghost var consumed: seq<Staged>        // everything taken from the ring
    ghost var batches: seq<seq<Staged>>    // everything handed to the handler

    ghost function Pending(): seq<Staged>
      requires count <= slots.Length
      reads this, slots
    {
      slots[..count]
    }

    /** Nothing taken from the ring is lost, repeated or reordered, and the counters count it. */
    ghost predicate Valid()
      reads this, slots
    {
      && slots.Length == CAPACITY && count <= CAPACITY
      && (count > 0 ==> 1 <= maxBatch <= CAPACITY && count < maxBatch && oldest == slots[0].enqueueNs)
      && Flatten(batches) + Pending() == consumed
      && (forall b {:trigger b in batches} :: b in batches ==> 1 <= |b| <= maxBatch)
      && requests + count == |consumed|
      && deadlineBatches + fullBatches == |batches|
    }

    constructor (maxBatch: nat, deadline: nat, wired: bool)
      ensures Valid() && fresh(slots) && consumed == [] && batches == []
      ensures this.maxBatch == maxBatch && this.deadline == deadline && this.wired == wired
    {
      this.maxBatch, this.deadline, this.wired := maxBatch, deadline, wired;
      slots := new Staged[CAPACITY](_ => Staged(0, 0));
      count, oldest, deadlineBatches, fullBatches, requests := 0, 0, 0, 0, 0;
      consumed, batches := [], [];
    }

    /** The usable configurations. */
    predicate Usable() {
      1 <= maxBatch <= CAPACITY && wired
    }

    /** The filling loop of poll_once. `offers` are the slots that successive try_consume calls
        return before the first null. */
    method Fill(offers: seq<Staged>) returns (taken: nat)
      requires Valid() && Usable()
      modifies this`count, this`oldest, this`consumed, slots
      ensures taken == Least(maxBatch - old(count), |offers|)
      ensures count == old(count) + taken && count <= maxBatch
      ensures consumed == old(consumed) + offers[..taken]
      ensures Pending() == old(Pending()) + offers[..taken]
      ensures count > 0 ==> oldest == slots[0].enqueueNs
      ensures count == 0 ==> oldest == old(oldest)
    {
      taken := 0;
      while count < maxBatch && taken < |offers|
        invariant taken <= |offers| && count == old(count) + taken && count <= maxBatch
        invariant consumed == old(consumed) + offers[..taken]
        invariant Pending() == old(Pending()) + offers[..taken]
        invariant count > 0 ==> oldest == slots[0].enqueueNs
        invariant count == 0 ==> oldest == old(oldest)
        decreases |offers| - taken
      {
        slots[count] := offers[taken];
        count := count + 1;
        if count == 1 { oldest := offers[taken].enqueueNs; }
        assert offers[..taken + 1] == offers[..taken] + [offers[taken]];
        assert Pending() == slots[..count - 1] + [offers[taken]];
        consumed := consumed + [offers[taken]];
        taken := taken + 1;
      }
    }

    /** Handing the staged slots to the handler; at least one, at most a batch. */
    method Dispatch(full: bool)
      requires slots.Length == CAPACITY && 1 <= count <= maxBatch <= CAPACITY
      requires Flatten(batches) + Pending() == consumed && requests + count == |consumed|
      requires forall b {:trigger b in batches} :: b in batches ==> 1 <= |b| <= maxBatch
      requires deadlineBatches + fullBatches == |batches|
      modifies this
      ensures Valid() && count == 0 && oldest == 0 && consumed == old(consumed)
      ensures batches == old(batches) + [old(Pending())]
      ensures fullBatches == old(fullBatches) + (if full then 1 else 0)
    {
      FlattenAppend(batches, Pending());
      batches := batches + [Pending()];
      requests := requests + count;
      if full { fullBatches := fullBatches + 1; } else { deadlineBatches := deadlineBatches + 1; }
      count, oldest := 0, 0;
      assert slots[..0] == [];
    }

    /** poll_once: fills up, then dispatches exactly when the batch is full or its first slot is
        overdue at the clock reading; a false answer means it is neither. */
    method PollOnce(offers: seq<Staged>, now: nat) returns (dispatched: bool, taken: nat)
      requires Valid()
      modifies this, slots
      ensures Valid()
      ensures !Usable() ==> !dispatched && taken == 0
      ensures Usable() ==> taken == Least(maxBatch - old(count), |offers|)
      ensures taken <= |offers| && consumed == old(consumed) + offers[..taken]
      ensures Usable() ==>
                (dispatched <==> old(count) + taken > 0 && !Waits(old(Pending()) + offers[..taken], maxBatch, deadline, now))
      ensures dispatched ==>
                && count == 0 && old(count) + taken > 0 && batches == old(batches) + [old(Pending()) + offers[..taken]]
                && (fullBatches == old(fullBatches) + 1 <==> old(count) + taken == maxBatch)
                && (old(count) + taken == maxBatch || Overdue((old(Pending()) + offers[..taken])[0].enqueueNs, now, deadline))
      ensures !dispatched ==> batches == old(batches) && Pending() == old(Pending()) + offers[..taken]
      ensures !dispatched && Usable() && count > 0 ==> Waits(Pending(), maxBatch, deadline, now)
    {
      if maxBatch == 0 || maxBatch > CAPACITY || !wired {
        assert offers[..0] == [];
        return false, 0;
      }
      taken := Fill(offers);
      if count == 0 { return false, taken; }
      var full := count == maxBatch;
      var overdue := now >= oldest && now - oldest >= deadline;
      if !full && !overdue { return false, taken; }
      assert Flatten(batches) + Pending() == consumed;
      Dispatch(full);
      return true, taken;
    }

    /** flush: at shutdown the rest goes out as a deadline batch. */
    method Flush() returns (dispatched: bool)
      requires Valid()
      modifies this
      ensures Valid() && consumed == old(consumed)
      ensures dispatched == (old(count) > 0 && wired)
      ensures dispatched ==> count == 0 && batches == old(batches) + [old(Pending())] && Flatten(batches) == consumed
      ensures fullBatches == old(fullBatches)
      ensures !dispatched ==> batches == old(batches) && count == old(count)
    {
      if count == 0 || !wired { return false; }
      Dispatch(false);
      return true;
    }
  }

  /** The same on a running batcher: its first poll answers false and keeps an overdue slot back. */
  method PollMissesLaterSlot(deadline: nat) returns (batcher: ContinuousBatcher, dispatched: bool)
    requires deadline > 0
    ensures !dispatched && batcher.Valid() && batcher.Pending() == [Staged(0, 1), Staged(1, 0)]
    ensures Overdue(batcher.Pending()[1].enqueueNs, deadline, deadline)
  {
    batcher := new ContinuousBatcher(32, deadline, true);
    var offers := [Staged(0, 1), Staged(1, 0)];
    var taken;
    assert batcher.Pending() == [];
    dispatched, taken := batcher.PollOnce(offers, deadline);
    assert offers[..taken] == offers;
    LaterSlotIsMissed(deadline);
  }
}
